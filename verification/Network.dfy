/** The dummy network plugin's resource graph: namespaces, virtual interfaces and connection
    points that refer to each other by UUID, and the effect of every plugin operation on it. */
module Network {
  import opened Model

  datatype VirtualInterfaceKind =
    | VETH(pair: Uuid, internal: bool)
    | BRIDGE(childs: seq<Uuid>)
    | MACVLAN
    | OTHER(tag: string)   // VLAN, VXLAN and the GRE kinds, which no operation inspects

  datatype VirtualInterface = VirtualInterface(
    uuid: Uuid,
    ifName: string,
    netNs: Option<Uuid>,
    kind: VirtualInterfaceKind,
    parent: Option<Uuid>)

  datatype NetworkNamespace = NetworkNamespace(uuid: Uuid, interfaces: seq<Uuid>)

  datatype ConnectionPoint = ConnectionPoint(
    uuid: Uuid, netNs: Uuid, bridge: Uuid, internalVeth: Uuid, externalVeth: Uuid)

  datatype ConfigKind = VethConfig | BridgeConfig | MacvlanConfig | OtherConfig(tag: string)

  /** The node-local network store. */
  datatype Net = Net(
    namespaces: map<Uuid, NetworkNamespace>,
    interfaces: map<Uuid, VirtualInterface>,
    connectionPoints: map<Uuid, ConnectionPoint>)

  const EMPTY_NET := Net(map[], map[], map[])

  /** The random draws of one interface creation; only a VETH pair uses the second one. */
  datatype VethDraw = VethDraw(internal: Uuid, external: Uuid, externalName: string)

  /** The random draws of one connection-point creation. */
  datatype CpDraw = CpDraw(cp: Uuid, netNs: Uuid, bridge: Uuid, internalVeth: Uuid, externalVeth: Uuid)

  // ---------------------------------------------------------------- store access

  function AddInterface(s: Net, v: VirtualInterface): Net {
    s.(interfaces := s.interfaces[v.uuid := v])
  }

  function RemoveInterface(s: Net, u: Uuid): Net {
    s.(interfaces := s.interfaces - {u})
  }

  function AddNamespace(s: Net, n: NetworkNamespace): Net {
    s.(namespaces := s.namespaces[n.uuid := n])
  }

  // ---------------------------------------------------------------- operations

  function CreateConnectionPoint(s: Net, d: CpDraw): (Net, Result<ConnectionPoint>) {
    if d.cp in s.connectionPoints then (s, Err(AlreadyPresent))
    else
      var cp := ConnectionPoint(d.cp, d.netNs, d.bridge, d.internalVeth, d.externalVeth);
      (s.(connectionPoints := s.connectionPoints[d.cp := cp]), Ok(cp))
  }

  function DeleteConnectionPoint(s: Net, u: Uuid): (Net, Result<Uuid>) {
    if u !in s.connectionPoints then (s, Err(NotFound))
    else (s.(connectionPoints := s.connectionPoints - {u}), Ok(u))
  }

  function CreateNamespace(s: Net, u: Uuid): (Net, Result<NetworkNamespace>) {
    var ns := NetworkNamespace(u, []);
    (AddNamespace(s, ns), Ok(ns))
  }

  function DeleteNamespace(s: Net, u: Uuid): (Net, Result<NetworkNamespace>) {
    if u !in s.namespaces then (s, Err(NotFound))
    else (s.(namespaces := s.namespaces - {u}), Ok(s.namespaces[u]))
  }

  /** The interface a create operation returns: for a VETH pair the internal end. */
  function FirstInterface(name: string, kind: ConfigKind, d: VethDraw, netNs: Option<Uuid>): VirtualInterface {
    var k := match kind
      case VethConfig => VETH(d.external, true)
      case BridgeConfig => BRIDGE([])
      case MacvlanConfig => MACVLAN
      case OtherConfig(tag) => OTHER(tag);
    VirtualInterface(d.internal, name, netNs, k, None)
  }

  function ExternalEnd(d: VethDraw, netNs: Option<Uuid>): VirtualInterface {
    VirtualInterface(d.external, d.externalName, netNs, VETH(d.internal, false), None)
  }

  function StoreCreated(s: Net, name: string, kind: ConfigKind, d: VethDraw, netNs: Option<Uuid>): Net {
    var s1 := AddInterface(s, FirstInterface(name, kind, d, netNs));
    if kind.VethConfig? then AddInterface(s1, ExternalEnd(d, netNs)) else s1
  }

  function CreateVirtualInterface(s: Net, name: string, kind: ConfigKind,
                                  d: VethDraw): (Net, Result<VirtualInterface>) {
    (StoreCreated(s, name, kind, d, None), Ok(FirstInterface(name, kind, d, None)))
  }

  function CreateVirtualInterfaceInNamespace(s: Net, name: string, kind: ConfigKind, nsUuid: Uuid, d: VethDraw)
    : (Net, Result<VirtualInterface>)
  {
    if nsUuid !in s.namespaces then (s, Err(NotFound))
    else
      var ns := s.namespaces[nsUuid];
      var created := if kind.VethConfig? then [d.internal, d.external] else [d.internal];
      var s1 := AddNamespace(s, ns.(interfaces := ns.interfaces + created));
      (StoreCreated(s1, name, kind, d, Some(ns.uuid)), Ok(FirstInterface(name, kind, d, Some(ns.uuid))))
  }

  function DeleteVirtualInterface(s: Net, u: Uuid): (Net, Result<VirtualInterface>) {
    if u !in s.interfaces then (s, Err(NotFound))
    else
      var v := s.interfaces[u];
      var s1 := if v.kind.VETH? then RemoveInterface(s, v.kind.pair) else s;
      (RemoveInterface(s1, u), Ok(v))
  }

  function DeleteVirtualInterfaceInNamespace(s: Net, u: Uuid, nsUuid: Uuid): (Net, Result<VirtualInterface>) {
    if nsUuid !in s.namespaces || u !in s.interfaces then (s, Err(NotFound))
    else
      var ns := s.namespaces[nsUuid];
      var v := s.interfaces[u];
      if v.netNs != Some(ns.uuid) || v.uuid !in ns.interfaces then (s, Err(NotConnected))
      else
        var s1 := if v.kind.VETH? then RemoveInterface(s, v.kind.pair) else s;
        var s2 := AddNamespace(s1, ns.(interfaces := RemoveFirst(ns.interfaces, v.uuid)));
        (RemoveInterface(s2, u), Ok(v))
  }

  function CreateVirtualBridge(s: Net, name: string, u: Uuid): (Net, Result<VirtualInterface>) {
    var v := VirtualInterface(u, name, None, BRIDGE([]), None);
    (AddInterface(s, v), Ok(v))
  }

  /** The kind is read from the global store, the record is removed from the local one. */
  function DeleteVirtualBridge(s: Net, global: map<Uuid, VirtualInterface>, u: Uuid): (Net, Result<VirtualInterface>) {
    if u !in global then (s, Err(NotFound))
    else if global[u].kind.BRIDGE? then (RemoveInterface(s, u), Ok(global[u]))
    else (s, Err(WrongKind))
  }

  function CreateMacvlanInterface(s: Net, name: string, u: Uuid): (Net, Result<VirtualInterface>) {
    var v := VirtualInterface(u, name, None, MACVLAN, None);
    (AddInterface(s, v), Ok(v))
  }

  function DeleteMacvlanInterface(s: Net, u: Uuid): (Net, Result<VirtualInterface>) {
    if u !in s.interfaces then (s, Err(NotFound))
    else if s.interfaces[u].kind.MACVLAN? then (RemoveInterface(s, u), Ok(s.interfaces[u]))
    else (s, Err(WrongKind))
  }

  /** The old namespace's list is left alone. */
  function BindInterface(s: Net, u: Uuid, cp: Uuid): (Net, Result<VirtualInterface>) {
    if cp !in s.connectionPoints || u !in s.interfaces then (s, Err(NotFound))
    else
      var v := s.interfaces[u].(netNs := Some(s.connectionPoints[cp].netNs));
      (AddInterface(s, v), Ok(v))
  }

  function UnbindInterface(s: Net, u: Uuid, cp: Uuid): (Net, Result<VirtualInterface>) {
    if cp !in s.connectionPoints || u !in s.interfaces then (s, Err(NotFound))
    else if s.interfaces[u].netNs != Some(s.connectionPoints[cp].netNs) then (s, Err(NotConnected))
    else
      var v := s.interfaces[u].(netNs := None);
      (AddInterface(s, v), Ok(v))
  }

  function MoveInterfaceIntoNamespace(s: Net, u: Uuid, nsUuid: Uuid): (Net, Result<VirtualInterface>) {
    if u !in s.interfaces || nsUuid !in s.namespaces then (s, Err(NotFound))
    else
      var ns := s.namespaces[nsUuid];
      var v := s.interfaces[u].(netNs := Some(ns.uuid));
      (AddNamespace(AddInterface(s, v), ns.(interfaces := ns.interfaces + [v.uuid])), Ok(v))
  }

  /** The interface is written before the namespace is looked up, so the two late errors
      still leave it in the default namespace. */
  function MoveInterfaceIntoDefaultNamespace(s: Net, u: Uuid): (Net, Result<VirtualInterface>) {
    if u !in s.interfaces then (s, Err(NotFound))
    else
      var v := s.interfaces[u];
      if v.netNs.None? then (s, Ok(v))
      else
        var w := v.(netNs := None);
        var s1 := AddInterface(s, w);
        if v.netNs.value !in s1.namespaces then (s1, Err(NotFound))
        else
          var ns := s1.namespaces[v.netNs.value];
          if w.uuid !in ns.interfaces then (s1, Err(NotConnected))
          else (AddNamespace(s1, ns.(interfaces := RemoveFirst(ns.interfaces, w.uuid))), Ok(w))
  }

  function RenameVirtualInterface(s: Net, u: Uuid, name: string): (Net, Result<VirtualInterface>) {
    if u !in s.interfaces then (s, Err(NotFound))
    else
      var v := s.interfaces[u].(ifName := name);
      (AddInterface(s, v), Ok(v))
  }

  /** The bridge is read again before the interface is written, so attaching a bridge to
      itself keeps its old parent. */
  function AttachInterface(s: Net, u: Uuid, br: Uuid): (Net, Result<VirtualInterface>) {
    if u !in s.interfaces || br !in s.interfaces then (s, Err(NotFound))
    else
      var bridge := s.interfaces[br];
      if !bridge.kind.BRIDGE? then (s, Err(WrongKind))
      else
        var v := s.interfaces[u].(parent := Some(bridge.uuid));
        var b := bridge.(kind := BRIDGE(bridge.kind.childs + [v.uuid]));
        (AddInterface(AddInterface(s, v), b), Ok(v))
  }

  function DetachInterface(s: Net, u: Uuid): (Net, Result<VirtualInterface>) {
    if u !in s.interfaces then (s, Err(NotFound))
    else
      var v := s.interfaces[u];
      if v.parent.None? then (s, Err(NotConnected))
      else if v.parent.value !in s.interfaces then (s, Err(NotFound))
      else
        var bridge := s.interfaces[v.parent.value];
        if !bridge.kind.BRIDGE? then (s, Err(WrongKind))
        else if v.uuid !in bridge.kind.childs then (s, Err(NotConnected))
        else
          var b := bridge.(kind := BRIDGE(RemoveFirst(bridge.kind.childs, v.uuid)));
          var w := v.(parent := None);
          (AddInterface(AddInterface(s, w), b), Ok(w))
  }

  // ---------------------------------------------------------------- one operation of any kind

  datatype NetOp =
    | OpCreateConnectionPoint(cpDraw: CpDraw)
    | OpDeleteConnectionPoint(u: Uuid)
    | OpCreateNamespace(drawn: Uuid)
    | OpDeleteNamespace(u: Uuid)
    | OpCreateInterface(name: string, kind: ConfigKind, draw: VethDraw)
    | OpCreateInterfaceIn(name: string, kind: ConfigKind, ns: Uuid, draw: VethDraw)
    | OpDeleteInterface(u: Uuid)
    | OpDeleteInterfaceIn(u: Uuid, ns: Uuid)
    | OpCreateBridge(name: string, drawn: Uuid)
    | OpDeleteBridge(u: Uuid)
    | OpCreateMacvlan(name: string, drawn: Uuid)
    | OpDeleteMacvlan(u: Uuid)
    | OpBind(u: Uuid, cp: Uuid)
    | OpUnbind(u: Uuid, cp: Uuid)
    | OpMoveInto(u: Uuid, ns: Uuid)
    | OpMoveDefault(u: Uuid)
    | OpRename(u: Uuid, name: string)
    | OpAttach(u: Uuid, br: Uuid)
    | OpDetach(u: Uuid)

  /** The store after an operation, whether it succeeded or returned an error. */
  function Effect(s: Net, global: map<Uuid, VirtualInterface>, op: NetOp): Net {
    match op
    case OpCreateConnectionPoint(d) => CreateConnectionPoint(s, d).0
    case OpDeleteConnectionPoint(u) => DeleteConnectionPoint(s, u).0
    case OpCreateNamespace(f) => CreateNamespace(s, f).0
    case OpDeleteNamespace(u) => DeleteNamespace(s, u).0
    case OpCreateInterface(name, kind, d) => CreateVirtualInterface(s, name, kind, d).0
    case OpCreateInterfaceIn(name, kind, ns, d) => CreateVirtualInterfaceInNamespace(s, name, kind, ns, d).0
    case OpDeleteInterface(u) => DeleteVirtualInterface(s, u).0
    case OpDeleteInterfaceIn(u, ns) => DeleteVirtualInterfaceInNamespace(s, u, ns).0
    case OpCreateBridge(name, f) => CreateVirtualBridge(s, name, f).0
    case OpDeleteBridge(u) => DeleteVirtualBridge(s, global, u).0
    case OpCreateMacvlan(name, f) => CreateMacvlanInterface(s, name, f).0
    case OpDeleteMacvlan(u) => DeleteMacvlanInterface(s, u).0
    case OpBind(u, cp) => BindInterface(s, u, cp).0
    case OpUnbind(u, cp) => UnbindInterface(s, u, cp).0
    case OpMoveInto(u, ns) => MoveInterfaceIntoNamespace(s, u, ns).0
    case OpMoveDefault(u) => MoveInterfaceIntoDefaultNamespace(s, u).0
    case OpRename(u, name) => RenameVirtualInterface(s, u, name).0
    case OpAttach(u, br) => AttachInterface(s, u, br).0
    case OpDetach(u) => DetachInterface(s, u).0
  }

  function CpDrawIds(d: CpDraw): seq<Uuid> {
    [d.cp, d.netNs, d.bridge, d.internalVeth, d.externalVeth]
  }

  /** The UUIDs an operation draws. */
  function Drawn(op: NetOp): seq<Uuid> {
    match op
    case OpCreateConnectionPoint(d) => CpDrawIds(d)
    case OpCreateNamespace(f) => [f]
    case OpCreateInterface(_, _, d) => [d.internal, d.external]
    case OpCreateInterfaceIn(_, _, _, d) => [d.internal, d.external]
    case OpCreateBridge(_, f) => [f]
    case OpCreateMacvlan(_, f) => [f]
    case _ => []
  }

  predicate Fresh(draws: seq<Uuid>, issued: set<Uuid>) {
    NoDup(draws) && forall u | u in draws :: u !in issued
  }

  function Issue(issued: set<Uuid>, draws: seq<Uuid>): set<Uuid> {
    issued + set u | u in draws
  }

  // ---------------------------------------------------------------- what every operation keeps

  /** Each record lies under its own UUID. */
  ghost predicate SelfKeyed(s: Net) {
    && (forall u | u in s.namespaces :: s.namespaces[u].uuid == u)
    && (forall u | u in s.interfaces :: s.interfaces[u].uuid == u)
    && (forall u | u in s.connectionPoints :: s.connectionPoints[u].uuid == u)
  }

  ghost predicate PairedAt(s: Net, u: Uuid)
    requires u in s.interfaces
  {
    s.interfaces[u].kind.VETH? ==>
      var p := s.interfaces[u].kind.pair;
      p != u && p in s.interfaces && s.interfaces[p].kind.VETH? && s.interfaces[p].kind.pair == u
  }

  /** VETH pairing is a total, symmetric and irreflexive matching. */
  ghost predicate Paired(s: Net) {
    forall u | u in s.interfaces :: PairedAt(s, u)
  }

  ghost predicate ListedInNamespace(s: Net, u: Uuid)
    requires u in s.interfaces
  {
    var ns := s.interfaces[u].netNs;
    ns.Some? && ns.value in s.namespaces ==> u in s.namespaces[ns.value].interfaces
  }

  ghost predicate ListedInBridge(s: Net, u: Uuid)
    requires u in s.interfaces
  {
    s.interfaces[u].parent.Some? && s.interfaces[u].parent.value in s.interfaces ==>
      var b := s.interfaces[u].parent.value;
      b != u && s.interfaces[b].kind.BRIDGE? && u in s.interfaces[b].kind.childs
  }

  /** Every live back-pointer is covered by the list it points to. */
  ghost predicate Covered(s: Net) {
    forall u | u in s.interfaces :: ListedInNamespace(s, u) && ListedInBridge(s, u)
  }

  /** A connection point's private namespace is never one of the stored namespaces. */
  ghost predicate PrivateNamespaces(s: Net) {
    forall c | c in s.connectionPoints :: s.connectionPoints[c].netNs !in s.namespaces
  }

  ghost predicate InterfaceIssued(v: VirtualInterface, issued: set<Uuid>) {
    && (v.netNs.Some? ==> v.netNs.value in issued)
    && (v.parent.Some? ==> v.parent.value in issued)
  }

  /** Every UUID the store mentions has been drawn before. */
  ghost predicate Issued(s: Net, issued: set<Uuid>) {
    && s.namespaces.Keys <= issued
    && s.interfaces.Keys <= issued
    && s.connectionPoints.Keys <= issued
    && (forall u | u in s.interfaces :: InterfaceIssued(s.interfaces[u], issued))
    && (forall c | c in s.connectionPoints :: s.connectionPoints[c].netNs in issued)
  }

  ghost predicate Wellformed(s: Net, issued: set<Uuid>) {
    SelfKeyed(s) && Paired(s) && Covered(s) && PrivateNamespaces(s) && Issued(s, issued)
  }

  /** What delete_virtual_bridge relies on: an interface the global store calls a bridge is not
      a VETH in the local store. */
  ghost predicate KindsAgree(s: Net, global: map<Uuid, VirtualInterface>) {
    forall u | u in global && u in s.interfaces && global[u].kind.BRIDGE? :: !s.interfaces[u].kind.VETH?
  }

  lemma KeepsCreateConnectionPoint(s: Net, d: CpDraw, issued: set<Uuid>)
    requires Wellformed(s, issued) && Fresh(CpDrawIds(d), issued)
    ensures Wellformed(CreateConnectionPoint(s, d).0, Issue(issued, CpDrawIds(d)))
  {
    assert d.cp in CpDrawIds(d) && d.netNs in CpDrawIds(d);
    var t := CreateConnectionPoint(s, d).0;
    forall u | u in t.interfaces
      ensures PairedAt(t, u) && ListedInNamespace(t, u) && ListedInBridge(t, u)
    {
      assert PairedAt(s, u) && ListedInNamespace(s, u) && ListedInBridge(s, u);
    }
  }

  lemma KeepsDeleteConnectionPoint(s: Net, u: Uuid, issued: set<Uuid>)
    requires Wellformed(s, issued)
    ensures Wellformed(DeleteConnectionPoint(s, u).0, issued)
  {
    var t := DeleteConnectionPoint(s, u).0;
    forall u | u in t.interfaces
      ensures PairedAt(t, u) && ListedInNamespace(t, u) && ListedInBridge(t, u)
    {
      assert PairedAt(s, u) && ListedInNamespace(s, u) && ListedInBridge(s, u);
    }
  }

  lemma KeepsCreateNamespace(s: Net, n: Uuid, issued: set<Uuid>)
    requires Wellformed(s, issued) && n !in issued
    ensures Wellformed(CreateNamespace(s, n).0, Issue(issued, [n]))
  {
    assert n in [n];
    var t := CreateNamespace(s, n).0;
    forall u | u in t.interfaces
      ensures PairedAt(t, u) && ListedInNamespace(t, u) && ListedInBridge(t, u)
    {
      assert PairedAt(s, u) && ListedInNamespace(s, u) && ListedInBridge(s, u);
      assert InterfaceIssued(s.interfaces[u], issued);
    }
  }

  lemma KeepsDeleteNamespace(s: Net, n: Uuid, issued: set<Uuid>)
    requires Wellformed(s, issued)
    ensures Wellformed(DeleteNamespace(s, n).0, issued)
  {
    var t := DeleteNamespace(s, n).0;
    forall u | u in t.interfaces
      ensures PairedAt(t, u) && ListedInNamespace(t, u) && ListedInBridge(t, u)
    {
      assert PairedAt(s, u) && ListedInNamespace(s, u) && ListedInBridge(s, u);
    }
  }

  /** Replacing a namespace's list by one that still names its interfaces. */
  lemma KeepsRelisting(s: Net, n: Uuid, list: seq<Uuid>, issued: set<Uuid>)
    requires Wellformed(s, issued) && n in s.namespaces
    requires forall u | u in s.interfaces && s.interfaces[u].netNs == Some(n) :: u in list
    ensures Wellformed(AddNamespace(s, s.namespaces[n].(interfaces := list)), issued)
  {
    var t := AddNamespace(s, s.namespaces[n].(interfaces := list));
    forall u | u in t.interfaces
      ensures PairedAt(t, u) && ListedInNamespace(t, u) && ListedInBridge(t, u)
    {
      assert PairedAt(s, u) && ListedInNamespace(s, u) && ListedInBridge(s, u);
    }
  }

  /** Rewriting one interface without touching its kind. */
  lemma KeepsRelinking(s: Net, v: VirtualInterface, issued: set<Uuid>)
    requires Wellformed(s, issued) && v.uuid in s.interfaces && v.kind == s.interfaces[v.uuid].kind
    requires InterfaceIssued(v, issued)
    requires ListedInNamespace(AddInterface(s, v), v.uuid) && ListedInBridge(AddInterface(s, v), v.uuid)
    ensures Wellformed(AddInterface(s, v), issued)
  {
    var t := AddInterface(s, v);
    forall u | u in t.interfaces
      ensures PairedAt(t, u) && ListedInNamespace(t, u) && ListedInBridge(t, u)
    {
      assert PairedAt(s, u) && ListedInNamespace(s, u) && ListedInBridge(s, u);
    }
  }

  /** Replacing a bridge's children by a list that still names every child. */
  lemma KeepsRechilding(s: Net, b: Uuid, childs: seq<Uuid>, issued: set<Uuid>)
    requires Wellformed(s, issued) && b in s.interfaces && s.interfaces[b].kind.BRIDGE?
    requires forall u | u in s.interfaces && s.interfaces[u].parent == Some(b) :: u in childs
    ensures Wellformed(AddInterface(s, s.interfaces[b].(kind := BRIDGE(childs))), issued)
  {
    var t := AddInterface(s, s.interfaces[b].(kind := BRIDGE(childs)));
    forall u | u in t.interfaces
      ensures PairedAt(t, u) && ListedInNamespace(t, u) && ListedInBridge(t, u)
    {
      assert PairedAt(s, u) && ListedInNamespace(s, u) && ListedInBridge(s, u);
      if s.interfaces[u].kind.VETH? { assert s.interfaces[s.interfaces[u].kind.pair].kind.VETH?; }
    }
  }

  /** Storing a new interface of a kind other than VETH. */
  lemma KeepsStoringSingle(s: Net, v: VirtualInterface, issued: set<Uuid>)
    requires Wellformed(s, issued) && v.uuid !in s.interfaces && !v.kind.VETH? && v.uuid in issued
    requires v.parent.None? && InterfaceIssued(v, issued)
    requires forall u | u in s.interfaces :: s.interfaces[u].parent != Some(v.uuid)
    requires ListedInNamespace(AddInterface(s, v), v.uuid)
    ensures Wellformed(AddInterface(s, v), issued)
  {
    var t := AddInterface(s, v);
    forall u | u in t.interfaces
      ensures PairedAt(t, u) && ListedInNamespace(t, u) && ListedInBridge(t, u)
    {
      if u != v.uuid { assert PairedAt(s, u) && ListedInNamespace(s, u) && ListedInBridge(s, u); }
    }
  }

  /** Storing both ends of a new VETH pair. */
  lemma KeepsStoringPair(s: Net, v: VirtualInterface, w: VirtualInterface, issued: set<Uuid>)
    requires Wellformed(s, issued) && v.uuid !in s.interfaces && w.uuid !in s.interfaces && v.uuid != w.uuid
    requires {v.uuid, w.uuid} <= issued && v.kind.VETH? && w.kind.VETH? && v.kind.pair == w.uuid
    requires w.kind.pair == v.uuid
    requires v.parent.None? && w.parent.None? && InterfaceIssued(v, issued) && InterfaceIssued(w, issued)
    requires forall u | u in s.interfaces ::
        s.interfaces[u].parent != Some(v.uuid) && s.interfaces[u].parent != Some(w.uuid)
    requires ListedInNamespace(AddInterface(s, v), v.uuid) && ListedInNamespace(AddInterface(s, w), w.uuid)
    ensures Wellformed(AddInterface(AddInterface(s, v), w), issued)
  {
    var t := AddInterface(AddInterface(s, v), w);
    forall u | u in t.interfaces
      ensures PairedAt(t, u) && ListedInNamespace(t, u) && ListedInBridge(t, u)
    {
      if u != v.uuid && u != w.uuid { assert PairedAt(s, u) && ListedInNamespace(s, u) && ListedInBridge(s, u); }
    }
  }

  lemma MoreIssued(s: Net, issued: set<Uuid>, more: set<Uuid>)
    requires Wellformed(s, issued) && issued <= more
    ensures Wellformed(s, more)
  {
    forall u | u in s.interfaces ensures InterfaceIssued(s.interfaces[u], more) {
      assert InterfaceIssued(s.interfaces[u], issued);
    }
  }

  lemma KeepsStoreCreated(s: Net, name: string, kind: ConfigKind, d: VethDraw, netNs: Option<Uuid>, issued: set<Uuid>,
                          more: set<Uuid>)
    requires Wellformed(s, issued) && Wellformed(s, more) && d.internal != d.external
    requires d.internal !in issued && d.external !in issued && {d.internal, d.external} <= more
    requires netNs.Some? ==>
      && netNs.value in s.namespaces
      && d.internal in s.namespaces[netNs.value].interfaces
      && (kind.VethConfig? ==> d.external in s.namespaces[netNs.value].interfaces)
    ensures Wellformed(StoreCreated(s, name, kind, d, netNs), more)
  {
    forall u | u in s.interfaces
      ensures s.interfaces[u].parent != Some(d.internal) && s.interfaces[u].parent != Some(d.external)
    {
      assert InterfaceIssued(s.interfaces[u], issued);
    }
    var v := FirstInterface(name, kind, d, netNs);
    if kind.VethConfig? {
      KeepsStoringPair(s, v, ExternalEnd(d, netNs), more);
    } else {
      KeepsStoringSingle(s, v, more);
    }
  }

  lemma KeepsCreateInterface(s: Net, name: string, kind: ConfigKind, d: VethDraw, issued: set<Uuid>)
    requires Wellformed(s, issued) && Fresh([d.internal, d.external], issued)
    ensures Wellformed(CreateVirtualInterface(s, name, kind, d).0, Issue(issued, [d.internal, d.external]))
  {
    var more := Issue(issued, [d.internal, d.external]);
    assert [d.internal, d.external][0] == d.internal && [d.internal, d.external][1] == d.external;
    MoreIssued(s, issued, more);
    KeepsStoreCreated(s, name, kind, d, None, issued, more);
  }

  lemma KeepsCreateInterfaceIn(s: Net, name: string, kind: ConfigKind, n: Uuid, d: VethDraw, issued: set<Uuid>)
    requires Wellformed(s, issued) && Fresh([d.internal, d.external], issued)
    ensures Wellformed(CreateVirtualInterfaceInNamespace(s, name, kind, n, d).0,
                       Issue(issued, [d.internal, d.external]))
  {
    var more := Issue(issued, [d.internal, d.external]);
    assert [d.internal, d.external][0] == d.internal && [d.internal, d.external][1] == d.external;
    MoreIssued(s, issued, more);
    if n in s.namespaces {
      var list := s.namespaces[n].interfaces + if kind.VethConfig? then [d.internal, d.external] else [d.internal];
      forall u | u in s.interfaces && s.interfaces[u].netNs == Some(n) ensures u in list {
        assert ListedInNamespace(s, u);
      }
      KeepsRelisting(s, n, list, issued);
      var s1 := AddNamespace(s, s.namespaces[n].(interfaces := list));
      MoreIssued(s1, issued, more);
      assert d.internal in list && (kind.VethConfig? ==> d.external in list) by {
        var k := |s.namespaces[n].interfaces|;
        assert list[k] == d.internal;
        if kind.VethConfig? { assert list[k + 1] == d.external; }
      }
      KeepsStoreCreated(s1, name, kind, d, Some(n), issued, more);
    }
  }

  /** Removing one interface that no VETH names as its pair. */
  lemma KeepsRemoveInterface(s: Net, u: Uuid, issued: set<Uuid>)
    requires Wellformed(s, issued) && (u in s.interfaces ==> !s.interfaces[u].kind.VETH?)
    ensures Wellformed(RemoveInterface(s, u), issued)
  {
    var t := RemoveInterface(s, u);
    forall w | w in t.interfaces
      ensures PairedAt(t, w) && ListedInNamespace(t, w) && ListedInBridge(t, w)
    {
      assert PairedAt(s, w) && ListedInNamespace(s, w) && ListedInBridge(s, w);
    }
  }

  lemma KeepsDeleteInterface(s: Net, u: Uuid, issued: set<Uuid>)
    requires Wellformed(s, issued)
    ensures Wellformed(DeleteVirtualInterface(s, u).0, issued)
  {
    var t := DeleteVirtualInterface(s, u).0;
    if u in s.interfaces {
      assert PairedAt(s, u);
    }
    forall w | w in t.interfaces
      ensures PairedAt(t, w) && ListedInNamespace(t, w) && ListedInBridge(t, w)
    {
      assert PairedAt(s, w) && ListedInNamespace(s, w) && ListedInBridge(s, w);
    }
  }

  lemma KeepsDeleteInterfaceIn(s: Net, u: Uuid, n: Uuid, issued: set<Uuid>)
    requires Wellformed(s, issued)
    ensures Wellformed(DeleteVirtualInterfaceInNamespace(s, u, n).0, issued)
  {
    var (t, r) := DeleteVirtualInterfaceInNamespace(s, u, n);
    if r.Ok? {
      KeepsDeleteInterface(s, u, issued);
      var s1 := DeleteVirtualInterface(s, u).0;
      var list := RemoveFirst(s.namespaces[n].interfaces, u);
      forall w | w in s1.interfaces && s1.interfaces[w].netNs == Some(n) ensures w in list {
        assert ListedInNamespace(s, w);
      }
      KeepsRelisting(s1, n, list, issued);
      assert t == AddNamespace(s1, s1.namespaces[n].(interfaces := list));
    }
  }

  lemma KeepsMoves(s: Net, u: Uuid, n: Uuid, issued: set<Uuid>)
    requires Wellformed(s, issued)
    ensures Wellformed(MoveInterfaceIntoNamespace(s, u, n).0, issued)
    ensures Wellformed(MoveInterfaceIntoDefaultNamespace(s, u).0, issued)
  {
    if u in s.interfaces {
      assert InterfaceIssued(s.interfaces[u], issued) && ListedInBridge(s, u) && ListedInNamespace(s, u);
      if n in s.namespaces {
        var list := s.namespaces[n].interfaces + [u];
        assert list[|list| - 1] == u;
        forall w | w in s.interfaces && s.interfaces[w].netNs == Some(n) ensures w in list {
          assert ListedInNamespace(s, w);
        }
        KeepsRelisting(s, n, list, issued);
        var s1 := AddNamespace(s, s.namespaces[n].(interfaces := list));
        KeepsRelinking(s1, s.interfaces[u].(netNs := Some(n)), issued);
        assert MoveInterfaceIntoNamespace(s, u, n).0 == AddInterface(s1, s.interfaces[u].(netNs := Some(n)));
      }
      if s.interfaces[u].netNs.Some? {
        var m := s.interfaces[u].netNs.value;
        var w := s.interfaces[u].(netNs := None);
        KeepsRelinking(s, w, issued);
        var s1 := AddInterface(s, w);
        if m in s.namespaces {
          var list := RemoveFirst(s.namespaces[m].interfaces, u);
          forall x | x in s1.interfaces && s1.interfaces[x].netNs == Some(m) ensures x in list {
            assert ListedInNamespace(s, x);
          }
          KeepsRelisting(s1, m, list, issued);
        }
      }
    }
  }

  lemma KeepsBinding(s: Net, u: Uuid, cp: Uuid, name: string, issued: set<Uuid>)
    requires Wellformed(s, issued)
    ensures Wellformed(BindInterface(s, u, cp).0, issued)
    ensures Wellformed(UnbindInterface(s, u, cp).0, issued)
    ensures Wellformed(RenameVirtualInterface(s, u, name).0, issued)
  {
    if u in s.interfaces {
      assert InterfaceIssued(s.interfaces[u], issued) && ListedInBridge(s, u) && ListedInNamespace(s, u);
      KeepsRelinking(s, s.interfaces[u].(ifName := name), issued);
      KeepsRelinking(s, s.interfaces[u].(netNs := None), issued);
      if cp in s.connectionPoints {
        KeepsRelinking(s, s.interfaces[u].(netNs := Some(s.connectionPoints[cp].netNs)), issued);
      }
    }
  }

  lemma KeepsAttach(s: Net, u: Uuid, b: Uuid, issued: set<Uuid>)
    requires Wellformed(s, issued)
    ensures Wellformed(AttachInterface(s, u, b).0, issued)
  {
    var (t, r) := AttachInterface(s, u, b);
    if r.Ok? {
      var childs := s.interfaces[b].kind.childs + [u];
      assert childs[|childs| - 1] == u;
      forall w | w in s.interfaces && s.interfaces[w].parent == Some(b) ensures w in childs {
        assert ListedInBridge(s, w);
      }
      KeepsRechilding(s, b, childs, issued);
      var s1 := AddInterface(s, s.interfaces[b].(kind := BRIDGE(childs)));
      if u == b {
        assert t == s1;
      } else {
        var v := s.interfaces[u].(parent := Some(b));
        assert InterfaceIssued(s.interfaces[u], issued) && ListedInNamespace(s, u);
        KeepsRelinking(s1, v, issued);
        assert t == AddInterface(s1, v);
      }
    }
  }

  lemma KeepsDetach(s: Net, u: Uuid, issued: set<Uuid>)
    requires Wellformed(s, issued)
    ensures Wellformed(DetachInterface(s, u).0, issued)
  {
    var (t, r) := DetachInterface(s, u);
    if r.Ok? {
      var b := s.interfaces[u].parent.value;
      assert ListedInBridge(s, u) && ListedInNamespace(s, u) && InterfaceIssued(s.interfaces[u], issued);
      var w := s.interfaces[u].(parent := None);
      KeepsRelinking(s, w, issued);
      var s1 := AddInterface(s, w);
      var childs := RemoveFirst(s.interfaces[b].kind.childs, u);
      forall x | x in s1.interfaces && s1.interfaces[x].parent == Some(b) ensures x in childs {
        assert ListedInBridge(s, x);
      }
      KeepsRechilding(s1, b, childs, issued);
    }
  }

  /** Every operation, including one that returns an error, keeps VETH pairing, coverage of
      back-pointers and the disjointness of private namespaces. */
  lemma EveryOperationKeeps(s: Net, global: map<Uuid, VirtualInterface>, op: NetOp, issued: set<Uuid>)
    requires Wellformed(s, issued) && Fresh(Drawn(op), issued)
    requires op.OpDeleteBridge? ==> KindsAgree(s, global)
    ensures Wellformed(Effect(s, global, op), Issue(issued, Drawn(op)))
  {
    if Drawn(op) == [] {
      assert Issue(issued, []) == issued;
      OperationKeeps(s, global, op, issued);
    } else {
      CreationKeeps(s, global, op, issued);
    }
  }

  lemma CreationKeeps(s: Net, global: map<Uuid, VirtualInterface>, op: NetOp, issued: set<Uuid>)
    requires Wellformed(s, issued) && Fresh(Drawn(op), issued) && Drawn(op) != []
    ensures Wellformed(Effect(s, global, op), Issue(issued, Drawn(op)))
  {
    match op
    case OpCreateConnectionPoint(d) => KeepsCreateConnectionPoint(s, d, issued);
    case OpCreateNamespace(n) => assert n in [n]; KeepsCreateNamespace(s, n, issued);
    case OpCreateInterface(name, kind, d) => KeepsCreateInterface(s, name, kind, d, issued);
    case OpCreateInterfaceIn(name, kind, n, d) => KeepsCreateInterfaceIn(s, name, kind, n, d, issued);
    case OpCreateBridge(name, n) => KeepsCreateSingle(s, name, BRIDGE([]), n, issued);
    case OpCreateMacvlan(name, n) => KeepsCreateSingle(s, name, MACVLAN, n, issued);
  }

  /** The operations that draw nothing. */
  lemma OperationKeeps(s: Net, global: map<Uuid, VirtualInterface>, op: NetOp, issued: set<Uuid>)
    requires Wellformed(s, issued) && Drawn(op) == []
    requires op.OpDeleteBridge? ==> KindsAgree(s, global)
    ensures Wellformed(Effect(s, global, op), issued)
  {
    match op
    case OpDeleteConnectionPoint(u) => KeepsDeleteConnectionPoint(s, u, issued);
    case OpDeleteNamespace(u) => KeepsDeleteNamespace(s, u, issued);
    case OpDeleteInterface(u) => KeepsDeleteInterface(s, u, issued);
    case OpDeleteInterfaceIn(u, n) => KeepsDeleteInterfaceIn(s, u, n, issued);
    case OpDeleteBridge(u) =>
      if u in s.interfaces { KeepsRemoveIfAgreed(s, global, u, issued); } else { KeepsRemoveInterface(s, u, issued); }
    case OpDeleteMacvlan(u) => KeepsDeleteMacvlan(s, u, issued);
    case OpBind(u, cp) => KeepsBinding(s, u, cp, "", issued);
    case OpUnbind(u, cp) => KeepsBinding(s, u, cp, "", issued);
    case OpMoveInto(u, n) => KeepsMoves(s, u, n, issued);
    case OpMoveDefault(u) => KeepsMoves(s, u, u, issued);
    case OpRename(u, name) => KeepsBinding(s, u, u, name, issued);
    case OpAttach(u, b) => KeepsAttach(s, u, b, issued);
    case OpDetach(u) => KeepsDetach(s, u, issued);
  }

  lemma KeepsCreateSingle(s: Net, name: string, kind: VirtualInterfaceKind, n: Uuid, issued: set<Uuid>)
    requires Wellformed(s, issued) && Fresh([n], issued) && !kind.VETH?
    ensures Wellformed(AddInterface(s, VirtualInterface(n, name, None, kind, None)), Issue(issued, [n]))
  {
    assert n in [n];
    MoreIssued(s, issued, Issue(issued, [n]));
    forall u | u in s.interfaces ensures s.interfaces[u].parent != Some(n) {
      assert InterfaceIssued(s.interfaces[u], issued);
    }
    KeepsStoringSingle(s, VirtualInterface(n, name, None, kind, None), Issue(issued, [n]));
  }

  lemma KeepsDeleteMacvlan(s: Net, u: Uuid, issued: set<Uuid>)
    requires Wellformed(s, issued)
    ensures Wellformed(DeleteMacvlanInterface(s, u).0, issued)
  {
    if u in s.interfaces && s.interfaces[u].kind.MACVLAN? { KeepsRemoveInterface(s, u, issued); }
  }

  lemma KeepsRemoveIfAgreed(s: Net, global: map<Uuid, VirtualInterface>, u: Uuid, issued: set<Uuid>)
    requires Wellformed(s, issued) && u in s.interfaces && KindsAgree(s, global)
    ensures Wellformed(DeleteVirtualBridge(s, global, u).0, issued)
  {
    if u in global && global[u].kind.BRIDGE? { KeepsRemoveInterface(s, u, issued); }
  }

  /** Exactly when delete_virtual_bridge keeps VETH pairing: unless the global store calls an
      interface a bridge that is locally one end of a pair. */
  lemma BridgeDeletionKeepsPairingIff(s: Net, global: map<Uuid, VirtualInterface>, u: Uuid, issued: set<Uuid>)
    requires Wellformed(s, issued)
    ensures Paired(DeleteVirtualBridge(s, global, u).0)
       <==> !(u in global && global[u].kind.BRIDGE? && u in s.interfaces && s.interfaces[u].kind.VETH?)
    ensures Paired(DeleteVirtualBridge(s, global, u).0) <==> Wellformed(DeleteVirtualBridge(s, global, u).0, issued)
  {
    var t := DeleteVirtualBridge(s, global, u).0;
    if u in global && global[u].kind.BRIDGE? && u in s.interfaces && s.interfaces[u].kind.VETH? {
      assert PairedAt(s, u);
      var p := s.interfaces[u].kind.pair;
      assert p in t.interfaces && !PairedAt(t, p);
    } else if u in global && global[u].kind.BRIDGE? {
      KeepsRemoveInterface(s, u, issued);
    }
  }

  /** Deleting one end of a pair removes exactly the two ends, and no remaining VETH dangles. */
  lemma DeletingOneEndRemovesBoth(s: Net, u: Uuid, issued: set<Uuid>)
    requires Wellformed(s, issued) && u in s.interfaces && s.interfaces[u].kind.VETH?
    ensures
      var p := s.interfaces[u].kind.pair;
      var t := DeleteVirtualInterface(s, u).0;
      && p != u && p in s.interfaces
      && t == s.(interfaces := s.interfaces - {u, p})
      && t == DeleteVirtualInterface(s, p).0
      && forall w | w in t.interfaces && t.interfaces[w].kind.VETH? :: t.interfaces[w].kind.pair in t.interfaces
  {
    assert PairedAt(s, u);
    var p := s.interfaces[u].kind.pair;
    var t := DeleteVirtualInterface(s, u).0;
    assert s.interfaces - {p} - {u} == s.interfaces - {u, p} == s.interfaces - {u} - {p};
    forall w | w in t.interfaces && t.interfaces[w].kind.VETH? ensures t.interfaces[w].kind.pair in t.interfaces {
      assert PairedAt(s, w);
    }
  }

  // ---------------------------------------------------------------- whole runs

  /** The store after a sequence of operations, started from a store. */
  function RunNet(s: Net, global: map<Uuid, VirtualInterface>, ops: seq<NetOp>): Net
    decreases |ops|
  {
    if ops == [] then s else RunNet(Effect(s, global, ops[0]), global, ops[1..])
  }

  function DrawnInRun(issued: set<Uuid>, ops: seq<NetOp>): set<Uuid>
    decreases |ops|
  {
    if ops == [] then issued else DrawnInRun(Issue(issued, Drawn(ops[0])), ops[1..])
  }

  /** Draws are fresh throughout, and bridges are only deleted where kinds agree. */
  ghost predicate LegalNetRun(s: Net, global: map<Uuid, VirtualInterface>, ops: seq<NetOp>, issued: set<Uuid>)
    decreases |ops|
  {
    ops == [] ||
    (&& Fresh(Drawn(ops[0]), issued)
     && (ops[0].OpDeleteBridge? ==> KindsAgree(s, global))
     && LegalNetRun(Effect(s, global, ops[0]), global, ops[1..], Issue(issued, Drawn(ops[0]))))
  }

  /** In every state reachable from a well-formed store (the empty one is) by any sequence of
      networking operations, every VETH has its mutual partner and every back-pointer is covered. */
  lemma {:induction false} EveryRunKeeps(s: Net, global: map<Uuid, VirtualInterface>, ops: seq<NetOp>,
                                         issued: set<Uuid>)
    requires Wellformed(s, issued) && LegalNetRun(s, global, ops, issued)
    ensures Wellformed(RunNet(s, global, ops), DrawnInRun(issued, ops))
    ensures Wellformed(EMPTY_NET, {})
    decreases |ops|
  {
    if ops != [] {
      EveryOperationKeeps(s, global, ops[0], issued);
      EveryRunKeeps(Effect(s, global, ops[0]), global, ops[1..], Issue(issued, Drawn(ops[0])));
    }
  }
}
