/** The dummy hypervisor: the lifecycle DEFINED <-> CONFIGURED <-> RUNNING of an FDU instance on
    one node, and the network resources that configuring allocates and cleaning releases. */
module Hypervisor {
  import opened Model
  import opened Network

  /** One node: the network store, the node-local instance store, the plugin's cache of it, and
      the records put into the local store that the agent's subscription has not yet handled. */
  datatype Node = Node(
    net: Net,
    local: map<Uuid, FDURecord>,
    cache: map<Uuid, FDURecord>,
    fifo: seq<FDURecord>)

  const EMPTY_NODE := Node(EMPTY_NET, map[], map[], [])

  /** What configure_fdu draws at random: a namespace, one draw for each connection point and
      each interface of the descriptor, and the iteration order of the HashMap of points. */
  datatype ConfigureDraws = ConfigureDraws(ns: Uuid, cps: seq<CpDraw>, veths: seq<VethDraw>, order: seq<string>)

  type CpTable = map<string, FDURecordConnectionPoint>

  function CpIds(cps: seq<ConnectionPointDescriptor>): set<string> {
    if cps == [] then {} else {cps[0].id} + CpIds(cps[1..])
  }

  predicate DrawsFit(desc: FDUDescriptor, d: ConfigureDraws) {
    && |d.cps| == |desc.connectionPoints|
    && |d.veths| == |desc.interfaces|
    && NoDup(d.order)
    && (set id | id in d.order) == CpIds(desc.connectionPoints)
  }

  // ---------------------------------------------------------------- allocation

  function AllocateCps(net: Net, cps: seq<ConnectionPointDescriptor>, draws: seq<CpDraw>, table: CpTable)
    : (r: (Net, Result<CpTable>))
    requires |cps| == |draws|
    ensures r.1.Ok? ==> r.1.value.Keys == table.Keys + CpIds(cps)
    decreases |cps|
  {
    if cps == [] then (net, Ok(table))
    else
      var (net1, vcp) := CreateConnectionPoint(net, draws[0]);
      if vcp.Err? then (net1, Err(vcp.error))
      else AllocateCps(net1, cps[1..], draws[1..],
                       table[cps[0].id := FDURecordConnectionPoint(vcp.value.uuid, cps[0].id)])
  }

  /** One turn of the interface loop: a VETH pair in the instance's namespace, its other end
      bound to the named connection point or moved to the default namespace. */
  function AllocateInterface(net: Net, ns: Uuid, intf: Interface, d: VethDraw, table: CpTable)
    : (Net, Result<FDURecordInterface>)
  {
    var (net1, viface) := CreateVirtualInterfaceInNamespace(net, intf.name, VethConfig, ns, d);
    if viface.Err? then (net1, Err(viface.error))
    else if !viface.value.kind.VETH? then (net1, Err(MalformedDescriptor))
    else
      var pair := viface.value.kind.pair;
      match intf.cpId
      case Some(id) =>
        if id !in table then (net1, Err(NotFound))
        else
          var (net2, bound) := BindInterface(net1, pair, table[id].uuid);
          if bound.Err? then (net2, Err(bound.error))
          else (net2, Ok(RecordInterface(intf, Some(table[id].uuid), viface.value.uuid)))
      case None =>
        var (net2, moved) := MoveInterfaceIntoDefaultNamespace(net1, pair);
        if moved.Err? then (net2, Err(moved.error))
        else (net2, Ok(RecordInterface(intf, None, viface.value.uuid)))
  }

  function RecordInterface(intf: Interface, cpUuid: Option<Uuid>, intfUuid: Uuid): FDURecordInterface {
    FDURecordInterface(intf.name, intf.kind, intf.macAddress, E1000, cpUuid, intfUuid)
  }

  function AllocateInterfaces(net: Net, ns: Uuid, intfs: seq<Interface>, draws: seq<VethDraw>, table: CpTable)
    : (Net, Result<seq<FDURecordInterface>>)
    requires |intfs| == |draws|
    decreases |intfs|
  {
    if intfs == [] then (net, Ok([]))
    else
      var (net1, first) := AllocateInterface(net, ns, intfs[0], draws[0], table);
      if first.Err? then (net1, Err(first.error))
      else
        var (net2, rest) := AllocateInterfaces(net1, ns, intfs[1..], draws[1..], table);
        (net2, if rest.Err? then rest else Ok([first.value] + rest.value))
  }

  function TableEntries(table: CpTable, order: seq<string>): seq<FDURecordConnectionPoint>
    requires forall id | id in order :: id in table
  {
    if order == [] then [] else [table[order[0]]] + TableEntries(table, order[1..])
  }

  // ---------------------------------------------------------------- release

  function ReleaseInterfaces(net: Net, intfs: seq<FDURecordInterface>): (Net, Result<()>)
    decreases |intfs|
  {
    if intfs == [] then (net, Ok(()))
    else
      var (net1, r) := DeleteVirtualInterface(net, intfs[0].intfUuid);
      if r.Err? then (net1, Err(r.error)) else ReleaseInterfaces(net1, intfs[1..])
  }

  function ReleaseCps(net: Net, cps: seq<FDURecordConnectionPoint>): (Net, Result<()>)
    decreases |cps|
  {
    if cps == [] then (net, Ok(()))
    else
      var (net1, r) := DeleteConnectionPoint(net, cps[0].uuid);
      if r.Err? then (net1, Err(r.error)) else ReleaseCps(net1, cps[1..])
  }

  // ---------------------------------------------------------------- lifecycle operations

  /** A put into the local store: the plugin's cache follows and the subscription is notified. */
  function Put(n: Node, rec: FDURecord): Node {
    n.(local := n.local[rec.uuid := rec], cache := n.cache[rec.uuid := rec], fifo := n.fifo + [rec])
  }

  function Define(n: Node, nodeUuid: Uuid, fduUuid: Uuid, drawn: Uuid): (Node, Result<FDURecord>) {
    var rec := FDURecord(drawn, fduUuid, nodeUuid, [], [], DEFINED, None, 0);
    (Put(n, rec), Ok(rec))
  }

  /** A delete in the local store: the subscription ignores it. */
  function Undefine(n: Node, i: Uuid): (Node, Result<Uuid>) {
    if i !in n.local then (n, Err(NotFound))
    else if n.local[i].status != DEFINED then (n, Err(TransitionNotAllowed))
    else (n.(local := n.local - {i}, cache := n.cache - {i}), Ok(i))
  }

  function Configure(n: Node, catalog: map<Uuid, FDUDescriptor>, i: Uuid, d: ConfigureDraws): (Node, Result<Uuid>)
    requires i in n.local && n.local[i].fduUuid in catalog ==> DrawsFit(catalog[n.local[i].fduUuid], d)
  {
    if i !in n.local then (n, Err(NotFound))
    else
      var rec := n.local[i];
      if rec.status != DEFINED then (n, Err(TransitionNotAllowed))
      else if rec.fduUuid !in catalog then (n, Err(NotFound))
      else
        var desc := catalog[rec.fduUuid];
        var net1 := CreateNamespace(n.net, d.ns).0;
        var (net2, table) := AllocateCps(net1, desc.connectionPoints, d.cps, map[]);
        if table.Err? then (n.(net := net2), Err(table.error))
        else
          var (net3, intfs) := AllocateInterfaces(net2, d.ns, desc.interfaces, d.veths, table.value);
          if intfs.Err? then (n.(net := net3), Err(intfs.error))
          else
            assert forall id | id in d.order :: id in (set x | x in d.order);
            (Put(n.(net := net3), Configured(rec, d, table.value, intfs.value)), Ok(i))
  }

  function Configured(rec: FDURecord, d: ConfigureDraws, table: CpTable, intfs: seq<FDURecordInterface>): FDURecord
    requires forall id | id in d.order :: id in table
  {
    rec.(interfaces := intfs, connectionPoints := TableEntries(table, d.order),
         status := CONFIGURED, hypervisorSpecific := Some(d.ns))
  }

  /** hypervisor_specific stays set; a record without it would make the plugin panic. */
  function Clean(n: Node, i: Uuid): (Node, Result<Uuid>) {
    if i !in n.local then (n, Err(NotFound))
    else
      var rec := n.local[i];
      if rec.status != CONFIGURED then (n, Err(TransitionNotAllowed))
      else if rec.hypervisorSpecific.None? then (n, Err(UnknownError("panic")))
      else
        var (net1, r1) := DeleteNamespace(n.net, rec.hypervisorSpecific.value);
        if r1.Err? then (n.(net := net1), Err(r1.error))
        else
          var (net2, r2) := ReleaseInterfaces(net1, rec.interfaces);
          if r2.Err? then (n.(net := net2), Err(r2.error))
          else
            var (net3, r3) := ReleaseCps(net2, rec.connectionPoints);
            if r3.Err? then (n.(net := net3), Err(r3.error))
            else (Put(n.(net := net3), Cleaned(rec)), Ok(i))
  }

  function Cleaned(rec: FDURecord): FDURecord {
    rec.(interfaces := [], connectionPoints := [], status := DEFINED)
  }

  function Start(n: Node, i: Uuid): (Node, Result<Uuid>) {
    if i !in n.local then (n, Err(NotFound))
    else if n.local[i].status != CONFIGURED then (n, Err(TransitionNotAllowed))
    else (Put(n, n.local[i].(status := RUNNING)), Ok(i))
  }

  function Stop(n: Node, i: Uuid): (Node, Result<Uuid>) {
    if i !in n.local then (n, Err(NotFound))
    else if n.local[i].status != RUNNING then (n, Err(TransitionNotAllowed))
    else (Put(n, n.local[i].(status := CONFIGURED)), Ok(i))
  }

  // ---------------------------------------------------------------- freshness of the draws

  predicate FreshCps(draws: seq<CpDraw>, issued: set<Uuid>) {
    draws == [] || (Fresh(CpDrawIds(draws[0]), issued) && FreshCps(draws[1..], Issue(issued, CpDrawIds(draws[0]))))
  }

  function IssueCps(issued: set<Uuid>, draws: seq<CpDraw>): set<Uuid>
    decreases |draws|
  {
    if draws == [] then issued else IssueCps(Issue(issued, CpDrawIds(draws[0])), draws[1..])
  }

  predicate FreshVeths(draws: seq<VethDraw>, issued: set<Uuid>) {
    draws == [] ||
    (&& draws[0].internal != draws[0].external
     && draws[0].internal !in issued && draws[0].external !in issued
     && FreshVeths(draws[1..], issued + {draws[0].internal, draws[0].external}))
  }

  predicate FreshDraws(d: ConfigureDraws, issued: set<Uuid>) {
    d.ns !in issued && FreshCps(d.cps, issued + {d.ns}) && FreshVeths(d.veths, IssueCps(issued + {d.ns}, d.cps))
  }

  function IssueDraws(issued: set<Uuid>, d: ConfigureDraws): set<Uuid> {
    IssueCps(issued + {d.ns}, d.cps) + VethKeys(d.veths)
  }

  /** The connection points and the interfaces that a list of draws creates. */
  function CpKeys(draws: seq<CpDraw>): set<Uuid> {
    if draws == [] then {} else {draws[0].cp} + CpKeys(draws[1..])
  }

  function VethKeys(draws: seq<VethDraw>): set<Uuid> {
    if draws == [] then {} else {draws[0].internal, draws[0].external} + VethKeys(draws[1..])
  }

  lemma {:induction false} FreshCpKeys(draws: seq<CpDraw>, issued: set<Uuid>)
    requires FreshCps(draws, issued)
    ensures CpKeys(draws) !! issued && |CpKeys(draws)| == |draws|
    ensures issued + CpKeys(draws) <= IssueCps(issued, draws)
  {
    if draws != [] {
      assert draws[0].cp in CpDrawIds(draws[0]);
      FreshCpKeys(draws[1..], Issue(issued, CpDrawIds(draws[0])));
    }
  }

  lemma {:induction false} FreshVethKeys(draws: seq<VethDraw>, issued: set<Uuid>)
    requires FreshVeths(draws, issued)
    ensures VethKeys(draws) !! issued
  {
    if draws != [] {
      FreshVethKeys(draws[1..], issued + {draws[0].internal, draws[0].external});
    }
  }

  // ---------------------------------------------------------------- ownership

  function PairOf(net: Net, u: Uuid): Uuid {
    if u in net.interfaces && net.interfaces[u].kind.VETH? then net.interfaces[u].kind.pair else u
  }

  /** The interfaces a record accounts for: each listed one together with its VETH partner. */
  function IfOwned(net: Net, intfs: seq<FDURecordInterface>): set<Uuid> {
    if intfs == [] then {}
    else {intfs[0].intfUuid, PairOf(net, intfs[0].intfUuid)} + IfOwned(net, intfs[1..])
  }

  function CpOwned(cps: seq<FDURecordConnectionPoint>): set<Uuid> {
    if cps == [] then {} else {cps[0].uuid} + CpOwned(cps[1..])
  }

  /** Every listed interface is one end of a stored pair, and no two entries share an end. */
  ghost predicate IfsReady(net: Net, intfs: seq<FDURecordInterface>) {
    intfs == [] ||
    var u := intfs[0].intfUuid;
    && u in net.interfaces && net.interfaces[u].kind.VETH? && PairedAt(net, u)
    && {u, PairOf(net, u)} !! IfOwned(net, intfs[1..])
    && IfsReady(net, intfs[1..])
  }

  ghost predicate CpsReady(net: Net, cps: seq<FDURecordConnectionPoint>) {
    cps == [] ||
    (&& cps[0].uuid in net.connectionPoints
     && cps[0].uuid !in CpOwned(cps[1..])
     && CpsReady(net, cps[1..]))
  }

  predicate Active(rec: FDURecord) {
    rec.status == CONFIGURED || rec.status == RUNNING
  }

  /** Everything an active record accounts for is stored. */
  ghost predicate Ready(net: Net, rec: FDURecord) {
    && rec.hypervisorSpecific.Some?
    && rec.hypervisorSpecific.value in net.namespaces
    && IfsReady(net, rec.interfaces)
    && CpsReady(net, rec.connectionPoints)
  }

  /** The namespaces, interfaces and connection points owned by each active record. */
  ghost function NsParts(local: map<Uuid, FDURecord>): map<Uuid, set<Uuid>> {
    map i | i in local && Active(local[i]) ::
      if local[i].hypervisorSpecific.Some? then {local[i].hypervisorSpecific.value} else {}
  }

  ghost function IfParts(net: Net, local: map<Uuid, FDURecord>): map<Uuid, set<Uuid>> {
    map i | i in local && Active(local[i]) :: IfOwned(net, local[i].interfaces)
  }

  ghost function CpParts(local: map<Uuid, FDURecord>): map<Uuid, set<Uuid>> {
    map i | i in local && Active(local[i]) :: CpOwned(local[i].connectionPoints)
  }

  /** keys is the disjoint union of the parts. */
  ghost predicate Partition(keys: set<Uuid>, parts: map<Uuid, set<Uuid>>) {
    && (forall u | u in keys :: exists i :: i in parts && u in parts[i])
    && (forall i | i in parts :: parts[i] <= keys)
    && (forall i, j | i in parts && j in parts && i != j :: parts[i] !! parts[j])
  }

  ghost predicate AllReady(net: Net, local: map<Uuid, FDURecord>) {
    forall i | i in local && Active(local[i]) :: Ready(net, local[i])
  }

  /** The stored resources are exactly the disjoint union of what the active records own. */
  ghost predicate Conserved(net: Net, local: map<Uuid, FDURecord>) {
    && AllReady(net, local)
    && Partition(net.namespaces.Keys, NsParts(local))
    && Partition(net.interfaces.Keys, IfParts(net, local))
    && Partition(net.connectionPoints.Keys, CpParts(local))
  }

  // ---------------------------------------------------------------- well-formed descriptors

  ghost predicate UniqueCpIds(cps: seq<ConnectionPointDescriptor>) {
    cps == [] || (cps[0].id !in CpIds(cps[1..]) && UniqueCpIds(cps[1..]))
  }

  /** Every interface names one of the given connection points, or none. */
  ghost predicate Resolved(intfs: seq<Interface>, ids: set<string>) {
    forall x | x in intfs && x.cpId.Some? :: x.cpId.value in ids
  }

  ghost predicate WellFormedDescriptor(desc: FDUDescriptor) {
    UniqueCpIds(desc.connectionPoints) && Resolved(desc.interfaces, CpIds(desc.connectionPoints))
  }
}
