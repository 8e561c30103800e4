/** Which nodes can host an FDU: the compatibility check of one node, and the selection of
    candidates over all advertised nodes. */
module Scheduling {
  import opened Model

  datatype CpuSpec = CpuSpec(arch: string, frequency: nat)

  datatype NodeInfo = NodeInfo(uuid: Uuid, cpu: seq<CpuSpec>, agentServiceUuid: Uuid)

  datatype DiskStatus = DiskStatus(mountPoint: string, free: real)

  datatype NodeStatus = NodeStatus(ramFree: real, disk: seq<DiskStatus>, interfaces: seq<string>)

  // ---------------------------------------------------------------- one node

  /** `len() as u8`: the processor count wraps at 256. */
  function AsU8(n: nat): nat {
    n % 256
  }

  function RootDisk(disk: seq<DiskStatus>): Option<DiskStatus> {
    if disk == [] then None
    else if disk[0].mountPoint == "/" then Some(disk[0])
    else RootDisk(disk[1..])
  }

  predicate NeedsFace(x: Interface) {
    x.vifKind == BRIDGED || x.vifKind == PHYSICAL
  }

  function FaceInterfaces(intfs: seq<Interface>): seq<Interface> {
    if intfs == [] then []
    else (if NeedsFace(intfs[0]) then [intfs[0]] else []) + FaceInterfaces(intfs[1..])
  }

  /** An interface without a parent compares each node interface with itself. */
  predicate AnyFace(x: Interface, faces: seq<string>) {
    exists k | 0 <= k < |faces| :: faces[k] == (if x.parent.Some? then x.parent.value else faces[k])
  }

  /** The fold over the bridged and physical interfaces; its accumulator is not used. */
  function FoldFaces(res: bool, intfs: seq<Interface>, faces: seq<string>): bool
    decreases |intfs|
  {
    if intfs == [] then res else FoldFaces(AnyFace(intfs[0], faces), intfs[1..], faces)
  }

  function FacesCheck(intfs: seq<Interface>, faces: seq<string>): bool {
    var needed := FaceInterfaces(intfs);
    if |needed| == 0 then true else FoldFaces(true, needed, faces)
  }

  /** What check_fdu_compatibility panics without: a processor and a root disk. */
  predicate Inspectable(info: NodeInfo, status: NodeStatus) {
    info.cpu != [] && RootDisk(status.disk).Some?
  }

  /** imageFound says whether the file that a file:// image names exists on the node. */
  function Compatible(desc: FDUDescriptor, info: NodeInfo, status: NodeStatus, hypervisors: set<string>,
                      imageFound: bool): bool
    requires Inspectable(info, status)
  {
    && desc.hypervisor in hypervisors
    && info.cpu[0].arch == desc.requirements.cpuArch
    && AsU8(|info.cpu|) >= desc.requirements.cpuMinCount
    && info.cpu[0].frequency >= desc.requirements.cpuMinFreq
    && status.ramFree >= desc.requirements.ramSizeMb as real
    && RootDisk(status.disk).value.free * 1024.0 >= desc.requirements.storageSizeMb as real
    && (desc.imageUri.Some? && "file://" <= desc.imageUri.value ==> imageFound)
    && FacesCheck(desc.interfaces, status.interfaces)
  }

  // ---------------------------------------------------------------- one requirement at a time

  datatype Requirement = HYPERVISOR | ARCHITECTURE | PROCESSORS | FREQUENCY | RAM | STORAGE | IMAGE | FACES

  /** The node falls short of this requirement of the descriptor. Free RAM is in MB, free disk in GB. */
  predicate Short(desc: FDUDescriptor, info: NodeInfo, status: NodeStatus, hypervisors: set<string>, imageFound: bool,
                  q: Requirement)
    requires Inspectable(info, status)
  {
    match q
    case HYPERVISOR => desc.hypervisor !in hypervisors
    case ARCHITECTURE => desc.requirements.cpuArch != info.cpu[0].arch
    case PROCESSORS => desc.requirements.cpuMinCount > |info.cpu| % 256
    case FREQUENCY => desc.requirements.cpuMinFreq > info.cpu[0].frequency
    case RAM => desc.requirements.ramSizeMb as real > status.ramFree
    case STORAGE => desc.requirements.storageSizeMb as real / 1024.0 > RootDisk(status.disk).value.free
    case IMAGE => desc.imageUri.Some? && "file://" <= desc.imageUri.value && !imageFound
    case FACES => !FacesCheck(desc.interfaces, status.interfaces)
  }

  /** A node is compatible exactly when it falls short of nothing. */
  lemma CompatibleIff(desc: FDUDescriptor, info: NodeInfo, status: NodeStatus, hypervisors: set<string>,
                      imageFound: bool)
    requires Inspectable(info, status)
    ensures Compatible(desc, info, status, hypervisors, imageFound)
       <==> forall q :: !Short(desc, info, status, hypervisors, imageFound, q)
  {
    if forall q :: !Short(desc, info, status, hypervisors, imageFound, q) {
      assert !Short(desc, info, status, hypervisors, imageFound, HYPERVISOR);
      assert !Short(desc, info, status, hypervisors, imageFound, ARCHITECTURE);
      assert !Short(desc, info, status, hypervisors, imageFound, PROCESSORS);
      assert !Short(desc, info, status, hypervisors, imageFound, FREQUENCY);
      assert !Short(desc, info, status, hypervisors, imageFound, RAM);
      assert !Short(desc, info, status, hypervisors, imageFound, STORAGE);
      assert !Short(desc, info, status, hypervisors, imageFound, IMAGE);
      assert !Short(desc, info, status, hypervisors, imageFound, FACES);
    }
  }

  /** The same descriptor with one size changed. */
  function Needing(desc: FDUDescriptor, q: Requirement, n: nat): FDUDescriptor {
    match q
    case PROCESSORS => desc.(requirements := desc.requirements.(cpuMinCount := n))
    case FREQUENCY => desc.(requirements := desc.requirements.(cpuMinFreq := n))
    case RAM => desc.(requirements := desc.requirements.(ramSizeMb := n))
    case STORAGE => desc.(requirements := desc.requirements.(storageSizeMb := n))
    case _ => desc
  }

  /** With everything else met, a node takes any size up to exactly what it has of that resource: its
      processors modulo 256, its first processor's frequency, its free RAM, the free space of its root
      disk. */
  lemma Thresholds(desc: FDUDescriptor, info: NodeInfo, status: NodeStatus, hypervisors: set<string>, imageFound: bool,
                   n: nat)
    requires Inspectable(info, status) && Compatible(desc, info, status, hypervisors, imageFound)
    ensures Compatible(Needing(desc, PROCESSORS, n), info, status, hypervisors, imageFound) <==> n <= |info.cpu| % 256
    ensures Compatible(Needing(desc, FREQUENCY, n), info, status, hypervisors, imageFound)
       <==> n <= info.cpu[0].frequency
    ensures Compatible(Needing(desc, RAM, n), info, status, hypervisors, imageFound) <==> n as real <= status.ramFree
    ensures Compatible(Needing(desc, STORAGE, n), info, status, hypervisors, imageFound)
       <==> n as real / 1024.0 <= RootDisk(status.disk).value.free
  {
  }

  /** The root disk is the first one mounted at the root. */
  lemma {:induction false} RootDiskIsFirst(disk: seq<DiskStatus>)
    ensures RootDisk(disk).Some? <==> exists k :: 0 <= k < |disk| && disk[k].mountPoint == "/"
    ensures RootDisk(disk).Some? ==> exists k ::
        0 <= k < |disk| && RootDisk(disk).value == disk[k] && disk[k].mountPoint == "/"
        && forall j | 0 <= j < k :: disk[j].mountPoint != "/"
  {
    if disk != [] && disk[0].mountPoint != "/" {
      RootDiskIsFirst(disk[1..]);
      if k :| 0 <= k < |disk| && disk[k].mountPoint == "/" { assert disk[1..][k - 1] == disk[k]; }
      if RootDisk(disk).Some? {
        var k :| 0 <= k < |disk[1..]| && RootDisk(disk[1..]).value == disk[1..][k] && disk[1..][k].mountPoint == "/"
          && forall j | 0 <= j < k :: disk[1..][j].mountPoint != "/";
        FirstBehind(disk, k);
      }
    }
  }

  lemma FirstBehind(disk: seq<DiskStatus>, k: nat)
    requires disk != [] && disk[0].mountPoint != "/" && k < |disk[1..]|
    requires forall j | 0 <= j < k :: disk[1..][j].mountPoint != "/"
    ensures forall j | 0 <= j < k + 1 :: disk[j].mountPoint != "/"
    ensures disk[k + 1] == disk[1..][k]
  {
    forall j | 0 <= j < k + 1 ensures disk[j].mountPoint != "/" {
      if j > 0 { assert disk[1..][j - 1] == disk[j]; }
    }
  }

  // ---------------------------------------------------------------- the dropped accumulator

  predicate FaceAvailable(x: Interface, faces: seq<string>) {
    if x.parent.Some? then x.parent.value in faces else faces != []
  }

  lemma AnyFaceMeans(x: Interface, faces: seq<string>)
    ensures AnyFace(x, faces) <==> FaceAvailable(x, faces)
  {
    if x.parent.None? && faces != [] { assert faces[0] == faces[0]; }
    if x.parent.Some? && x.parent.value in faces {
      var k :| 0 <= k < |faces| && faces[k] == x.parent.value;
    }
  }

  lemma {:induction false} FoldFacesIsLast(res: bool, intfs: seq<Interface>, faces: seq<string>)
    ensures FoldFaces(res, intfs, faces) == if intfs == [] then res else FaceAvailable(intfs[|intfs| - 1], faces)
    decreases |intfs|
  {
    if intfs != [] {
      AnyFaceMeans(intfs[0], faces);
      FoldFacesIsLast(AnyFace(intfs[0], faces), intfs[1..], faces);
    }
  }

  lemma {:induction false} FaceInterfacesFilter(intfs: seq<Interface>)
    ensures forall x :: x in FaceInterfaces(intfs) <==> x in intfs && NeedsFace(x)
  {
    if intfs != [] {
      assert intfs == [intfs[0]] + intfs[1..];
      FaceInterfacesFilter(intfs[1..]);
    }
  }

  lemma {:induction false} FaceInterfacesLast(intfs: seq<Interface>, k: nat)
    requires k < |intfs| && NeedsFace(intfs[k]) && forall j | k < j < |intfs| :: !NeedsFace(intfs[j])
    ensures FaceInterfaces(intfs) != [] && FaceInterfaces(intfs)[|FaceInterfaces(intfs)| - 1] == intfs[k]
  {
    if k > 0 {
      FaceInterfacesLast(intfs[1..], k - 1);
    } else {
      FaceInterfacesFilter(intfs[1..]);
      EmptyIff(FaceInterfaces(intfs[1..]));
    }
  }

  /** The k-th interface is bridged or physical, and none after it is. */
  ghost predicate LastFace(intfs: seq<Interface>, k: nat)
    requires k < |intfs|
  {
    NeedsFace(intfs[k]) && forall j | k < j < |intfs| :: !NeedsFace(intfs[j])
  }

  /** The coded interface check looks at the last bridged or physical interface only. */
  lemma FacesCheckIsLastFace(intfs: seq<Interface>, faces: seq<string>)
    ensures (forall x | x in intfs :: !NeedsFace(x)) ==> FacesCheck(intfs, faces)
    ensures forall k | 0 <= k < |intfs| && LastFace(intfs, k) ::
              FacesCheck(intfs, faces) == FaceAvailable(intfs[k], faces)
  {
    FaceInterfacesFilter(intfs);
    FoldFacesIsLast(true, FaceInterfaces(intfs), faces);
    EmptyIff(FaceInterfaces(intfs));
    forall k | 0 <= k < |intfs| && LastFace(intfs, k)
      ensures FacesCheck(intfs, faces) == FaceAvailable(intfs[k], faces)
    {
      FaceInterfacesLast(intfs, k);
    }
  }

  ghost predicate AllFacesAvailable(intfs: seq<Interface>, faces: seq<string>) {
    forall x | x in intfs && NeedsFace(x) :: FaceAvailable(x, faces)
  }

  /** The coded check accepts a node that lacks an interface exactly when a missing one is
      followed by a last one that is present; it never rejects a node that has them all. */
  lemma FacesCheckWrongIff(intfs: seq<Interface>, faces: seq<string>, k: nat)
    requires k < |intfs| && LastFace(intfs, k)
    ensures FacesCheck(intfs, faces) != AllFacesAvailable(intfs, faces)
       <==> FaceAvailable(intfs[k], faces)
            && exists j :: 0 <= j < k && NeedsFace(intfs[j]) && !FaceAvailable(intfs[j], faces)
    ensures AllFacesAvailable(intfs, faces) ==> FacesCheck(intfs, faces)
  {
    FacesCheckIsLastFace(intfs, faces);
    assert intfs[k] in intfs;
    if !AllFacesAvailable(intfs, faces) {
      var x :| x in intfs && NeedsFace(x) && !FaceAvailable(x, faces);
      var j :| 0 <= j < |intfs| && intfs[j] == x;
      assert j <= k;
    } else {
      forall j | 0 <= j < k && NeedsFace(intfs[j]) ensures FaceAvailable(intfs[j], faces) {
        assert intfs[j] in intfs;
      }
    }
  }

  /** An input on which the check is wrong: the first of two bridged interfaces is missing. */
  lemma FacesCheckWrongInput()
    ensures exists intfs, faces :: FacesCheck(intfs, faces) && !AllFacesAvailable(intfs, faces)
  {
    var missing := Interface("a", VIRTUAL, None, BRIDGED, Some("br0"), None);
    var present := Interface("b", VIRTUAL, None, BRIDGED, Some("br1"), None);
    var intfs, faces := [missing, present], ["br1"];
    assert intfs[0] in intfs && NeedsFace(intfs[0]) && !FaceAvailable(intfs[0], faces);
    FacesCheckIsLastFace(intfs, faces);
    assert LastFace(intfs, 1) && FacesCheck(intfs, faces) == FaceAvailable(intfs[1], faces);
    assert FacesCheck(intfs, faces) && !AllFacesAvailable(intfs, faces);
  }

  /** The wrapped processor count gives the true verdict for this requirement. */
  predicate CountJudged(count: nat, needed: nat) {
    AsU8(count) >= needed <==> count >= needed
  }

  /** It does so for every requirement that fits the descriptor's 8 bits exactly when the count itself
      fits, or wraps to the largest one. A node with 256 processors is refused every descriptor that
      needs one. */
  lemma CpuCountRightIff(count: nat)
    ensures (forall needed: nat | needed < 256 :: CountJudged(count, needed)) <==> count < 256 || count % 256 == 255
    ensures !CountJudged(256, 1)
  {
    if count >= 256 && count % 256 != 255 {
      assert !CountJudged(count, count % 256 + 1);
    }
  }

  /** A node that offers at least as much of everything. */
  ghost predicate OffersMore(info: NodeInfo, info': NodeInfo, status: NodeStatus, status': NodeStatus)
    requires Inspectable(info, status) && Inspectable(info', status')
  {
    && info'.cpu[0].arch == info.cpu[0].arch && info'.cpu[0].frequency >= info.cpu[0].frequency
    && |info.cpu| <= |info'.cpu| && status'.ramFree >= status.ramFree
    && RootDisk(status'.disk).value.free >= RootDisk(status.disk).value.free
    && (forall f | f in status.interfaces :: f in status'.interfaces)
  }

  lemma MoreFaces(intfs: seq<Interface>, faces: seq<string>, faces': seq<string>)
    requires forall f | f in faces :: f in faces'
    ensures FacesCheck(intfs, faces) ==> FacesCheck(intfs, faces')
  {
    FoldFacesIsLast(true, FaceInterfaces(intfs), faces);
    FoldFacesIsLast(true, FaceInterfaces(intfs), faces');
    if faces != [] { assert faces[0] in faces'; }
  }

  /** Offering more never makes a node incompatible, provided the processor count stays below 256. */
  lemma CompatibleMonotone(desc: FDUDescriptor, info: NodeInfo, info': NodeInfo, status: NodeStatus,
                           status': NodeStatus,
                           hypervisors: set<string>, hypervisors': set<string>, imageFound: bool, imageFound': bool)
    requires Inspectable(info, status) && Inspectable(info', status') && OffersMore(info, info', status, status')
    requires hypervisors <= hypervisors' && (imageFound ==> imageFound') && |info'.cpu| < 256
    requires Compatible(desc, info, status, hypervisors, imageFound)
    ensures Compatible(desc, info', status', hypervisors', imageFound')
  {
    MoreFaces(desc.interfaces, status.interfaces, status'.interfaces);
  }

  // ---------------------------------------------------------------- candidates

  /** The services asked over RPC: every advertised node but the caller's own. */
  function RemoteServices(nodes: seq<NodeInfo>, mine: Uuid): seq<Uuid> {
    if nodes == [] then []
    else
      (if nodes[0].agentServiceUuid != mine then [nodes[0].agentServiceUuid] else [])
      + RemoteServices(nodes[1..], mine)
  }

  function Accepting(services: seq<Uuid>, verdict: Uuid -> Result<bool>): seq<Uuid> {
    if services == [] then []
    else (if verdict(services[0]) == Ok(true) then [services[0]] else []) + Accepting(services[1..], verdict)
  }

  /** The candidate list mixes service UUIDs of the others with the caller's own node UUID. */
  function Candidates(nodes: seq<NodeInfo>, mine: Uuid, verdict: Uuid -> Result<bool>, self: Uuid,
                      selfVerdict: Result<bool>): seq<Uuid> {
    Accepting(RemoteServices(nodes, mine), verdict) + if selfVerdict == Ok(true) then [self] else []
  }

  lemma {:induction false} RemoteServicesAppend(nodes: seq<NodeInfo>, node: NodeInfo, mine: Uuid)
    ensures RemoteServices(nodes + [node], mine)
         == RemoteServices(nodes, mine) + if node.agentServiceUuid != mine then [node.agentServiceUuid] else []
  {
    if nodes != [] {
      RemoteServicesAppend(nodes[1..], node, mine);
      assert (nodes + [node])[1..] == nodes[1..] + [node];
    }
  }

  lemma {:induction false} AcceptingAppend(services: seq<Uuid>, s: Uuid, verdict: Uuid -> Result<bool>)
    ensures Accepting(services + [s], verdict)
      == Accepting(services, verdict) + if verdict(s) == Ok(true) then [s] else []
  {
    if services != [] {
      AcceptingAppend(services[1..], s, verdict);
      assert (services + [s])[1..] == services[1..] + [s];
    }
  }

  lemma {:induction false} RemoteServicesAre(nodes: seq<NodeInfo>, mine: Uuid)
    ensures forall s ::
        s in RemoteServices(nodes, mine)
        <==> s != mine && exists k :: 0 <= k < |nodes| && nodes[k].agentServiceUuid == s
  {
    if nodes != [] {
      RemoteServicesAre(nodes[1..], mine);
      forall s
        ensures s in RemoteServices(nodes, mine)
          <==> s != mine && exists k :: 0 <= k < |nodes| && nodes[k].agentServiceUuid == s
      {
        if s in RemoteServices(nodes[1..], mine) {
          var k :| 0 <= k < |nodes[1..]| && nodes[1..][k].agentServiceUuid == s;
          assert nodes[k + 1].agentServiceUuid == s;
        }
        if s != mine && exists k :: 0 <= k < |nodes| && nodes[k].agentServiceUuid == s {
          var k :| 0 <= k < |nodes| && nodes[k].agentServiceUuid == s;
          if k > 0 { assert nodes[1..][k - 1].agentServiceUuid == s; }
        }
      }
    }
  }

  lemma {:induction false} AcceptingAre(services: seq<Uuid>, verdict: Uuid -> Result<bool>)
    ensures forall s :: s in Accepting(services, verdict) <==> s in services && verdict(s) == Ok(true)
  {
    if services != [] {
      assert services == [services[0]] + services[1..];
      AcceptingAre(services[1..], verdict);
    }
  }

  function Services(nodes: seq<NodeInfo>): seq<Uuid> {
    if nodes == [] then [] else [nodes[0].agentServiceUuid] + Services(nodes[1..])
  }

  lemma {:induction false} AskedCount(nodes: seq<NodeInfo>, mine: Uuid, s: Uuid)
    ensures multiset(RemoteServices(nodes, mine))[s] == if s == mine then 0 else multiset(Services(nodes))[s]
  {
    if nodes != [] {
      AskedCount(nodes[1..], mine, s);
      var asked := if nodes[0].agentServiceUuid != mine then [nodes[0].agentServiceUuid] else [];
      assert multiset(RemoteServices(nodes, mine)) == multiset(asked) + multiset(RemoteServices(nodes[1..], mine));
      assert multiset(Services(nodes)) == multiset{nodes[0].agentServiceUuid} + multiset(Services(nodes[1..]));
    }
  }

  /** With the caller advertised once, each advertised node is asked exactly once: the others
      over RPC and the caller directly. */
  lemma EachNodeAskedOnce(nodes: seq<NodeInfo>, mine: Uuid)
    requires multiset(Services(nodes))[mine] == 1
    ensures multiset(RemoteServices(nodes, mine) + [mine]) == multiset(Services(nodes))
  {
    var asked, all := RemoteServices(nodes, mine), Services(nodes);
    forall s ensures multiset(asked + [mine])[s] == multiset(all)[s] {
      AskedCount(nodes, mine, s);
      assert multiset(asked + [mine]) == multiset(asked) + multiset{mine};
    }
  }

  /** Nobody is a candidate exactly when no asked node answered Ok(true). */
  lemma NoCandidateIff(nodes: seq<NodeInfo>, mine: Uuid, verdict: Uuid -> Result<bool>, self: Uuid,
                       selfVerdict: Result<bool>)
    ensures Candidates(nodes, mine, verdict, self, selfVerdict) == []
       <==> selfVerdict != Ok(true) && forall k | 0 <= k < |nodes| && nodes[k].agentServiceUuid != mine ::
           verdict(nodes[k].agentServiceUuid) != Ok(true)
  {
    var remote := RemoteServices(nodes, mine);
    RemoteServicesAre(nodes, mine);
    AcceptingAre(remote, verdict);
    var c := Candidates(nodes, mine, verdict, self, selfVerdict);
    if c == [] {
      forall k | 0 <= k < |nodes| && nodes[k].agentServiceUuid != mine
        ensures verdict(nodes[k].agentServiceUuid) != Ok(true)
      {
        assert nodes[k].agentServiceUuid in remote;
        assert nodes[k].agentServiceUuid !in Accepting(remote, verdict);
      }
    } else if Accepting(remote, verdict) != [] {
      assert Accepting(remote, verdict)[0] in Accepting(remote, verdict);
    }
  }

  /** Every candidate is the caller having accepted, or the service of another advertised node
      that accepted; when no service UUID is a node UUID the two cannot be confused. */
  lemma CandidateAccepted(nodes: seq<NodeInfo>, mine: Uuid, verdict: Uuid -> Result<bool>, self: Uuid,
                          selfVerdict: Result<bool>, c: Uuid)
    requires c in Candidates(nodes, mine, verdict, self, selfVerdict)
    requires forall k | 0 <= k < |nodes| :: nodes[k].agentServiceUuid != self
    ensures c == self ==> selfVerdict == Ok(true)
    ensures c != self ==> verdict(c) == Ok(true) && c != mine && exists k ::
        0 <= k < |nodes| && nodes[k].agentServiceUuid == c
  {
    RemoteServicesAre(nodes, mine);
    AcceptingAre(RemoteServices(nodes, mine), verdict);
  }

  /** Everybody who accepted is a candidate. */
  lemma AllAcceptingListed(nodes: seq<NodeInfo>, mine: Uuid, verdict: Uuid -> Result<bool>, self: Uuid,
                           selfVerdict: Result<bool>)
    ensures selfVerdict == Ok(true) ==> self in Candidates(nodes, mine, verdict, self, selfVerdict)
    ensures forall k | 0 <= k < |nodes| && nodes[k].agentServiceUuid != mine
                       && verdict(nodes[k].agentServiceUuid) == Ok(true) ::
              nodes[k].agentServiceUuid in Candidates(nodes, mine, verdict, self, selfVerdict)
  {
    RemoteServicesAre(nodes, mine);
    AcceptingAre(RemoteServices(nodes, mine), verdict);
  }

  lemma {:induction false} AcceptingDiffer(services: seq<Uuid>, verdict: Uuid -> Result<bool>)
    requires NoDup(services)
    ensures NoDup(Accepting(services, verdict))
  {
    if services != [] {
      AcceptingDiffer(services[1..], verdict);
      AcceptingAre(services[1..], verdict);
    }
  }
}
