/** What the networking operations answer, what they return and how far they reach, over all of them. */
module NetworkAnswers {
  import opened Model
  import opened Network

  function ErrorIn<T>(r: Result<T>): Option<FError> {
    if r.Err? then Some(r.error) else None
  }

  /** The error that an operation answers with, if any. */
  function ErrorOf(s: Net, global: map<Uuid, VirtualInterface>, op: NetOp): Option<FError> {
    match op
    case OpCreateConnectionPoint(d) => ErrorIn(CreateConnectionPoint(s, d).1)
    case OpDeleteConnectionPoint(u) => ErrorIn(DeleteConnectionPoint(s, u).1)
    case OpCreateNamespace(f) => ErrorIn(CreateNamespace(s, f).1)
    case OpDeleteNamespace(u) => ErrorIn(DeleteNamespace(s, u).1)
    case OpCreateInterface(name, kind, d) => ErrorIn(CreateVirtualInterface(s, name, kind, d).1)
    case OpCreateInterfaceIn(name, kind, ns, d) => ErrorIn(CreateVirtualInterfaceInNamespace(s, name, kind, ns, d).1)
    case OpDeleteInterface(u) => ErrorIn(DeleteVirtualInterface(s, u).1)
    case OpDeleteInterfaceIn(u, ns) => ErrorIn(DeleteVirtualInterfaceInNamespace(s, u, ns).1)
    case OpCreateBridge(name, f) => ErrorIn(CreateVirtualBridge(s, name, f).1)
    case OpDeleteBridge(u) => ErrorIn(DeleteVirtualBridge(s, global, u).1)
    case OpCreateMacvlan(name, f) => ErrorIn(CreateMacvlanInterface(s, name, f).1)
    case OpDeleteMacvlan(u) => ErrorIn(DeleteMacvlanInterface(s, u).1)
    case OpBind(u, cp) => ErrorIn(BindInterface(s, u, cp).1)
    case OpUnbind(u, cp) => ErrorIn(UnbindInterface(s, u, cp).1)
    case OpMoveInto(u, ns) => ErrorIn(MoveInterfaceIntoNamespace(s, u, ns).1)
    case OpMoveDefault(u) => ErrorIn(MoveInterfaceIntoDefaultNamespace(s, u).1)
    case OpRename(u, name) => ErrorIn(RenameVirtualInterface(s, u, name).1)
    case OpAttach(u, br) => ErrorIn(AttachInterface(s, u, br).1)
    case OpDetach(u) => ErrorIn(DetachInterface(s, u).1)
  }

  // ---------------------------------------------------------------- the records an operation needs

  /** The interfaces that the operation names, or refers to through the one it names. */
  function InterfacesNamed(s: Net, op: NetOp): set<Uuid> {
    match op
    case OpDeleteInterface(u) => {u}
    case OpDeleteInterfaceIn(u, _) => {u}
    case OpDeleteMacvlan(u) => {u}
    case OpBind(u, _) => {u}
    case OpUnbind(u, _) => {u}
    case OpMoveInto(u, _) => {u}
    case OpMoveDefault(u) => {u}
    case OpRename(u, _) => {u}
    case OpAttach(u, br) => {u, br}
    case OpDetach(u) => {u} + if u in s.interfaces then Given(s.interfaces[u].parent) else {}
    case _ => {}
  }

  function NamespacesNamed(s: Net, op: NetOp): set<Uuid> {
    match op
    case OpDeleteNamespace(u) => {u}
    case OpCreateInterfaceIn(_, _, ns, _) => {ns}
    case OpDeleteInterfaceIn(_, ns) => {ns}
    case OpMoveInto(_, ns) => {ns}
    case OpMoveDefault(u) => if u in s.interfaces then Given(s.interfaces[u].netNs) else {}
    case _ => {}
  }

  function PointsNamed(op: NetOp): set<Uuid> {
    match op
    case OpDeleteConnectionPoint(u) => {u}
    case OpBind(_, cp) => {cp}
    case OpUnbind(_, cp) => {cp}
    case _ => {}
  }

  function Given(u: Option<Uuid>): set<Uuid> {
    if u.Some? then {u.value} else {}
  }

  /** The operations that change an interface that is there. */
  predicate Reconnects(op: NetOp) {
    op.OpBind? || op.OpUnbind? || op.OpMoveInto? || op.OpMoveDefault? || op.OpRename? || op.OpAttach? || op.OpDetach?
  }

  predicate Creates(op: NetOp) {
    || op.OpCreateConnectionPoint? || op.OpCreateNamespace? || op.OpCreateInterface? || op.OpCreateInterfaceIn?
    || op.OpCreateBridge? || op.OpCreateMacvlan?
  }

  predicate Leaves(op: NetOp) {
    op.OpMoveDefault? || op.OpDetach?
  }

  /** Everything that the operation names or refers to is stored; a bridge to delete in the global store. */
  ghost predicate AllThere(s: Net, global: map<Uuid, VirtualInterface>, op: NetOp) {
    && InterfacesNamed(s, op) <= s.interfaces.Keys && NamespacesNamed(s, op) <= s.namespaces.Keys
    && PointsNamed(op) <= s.connectionPoints.Keys && (op.OpDeleteBridge? ==> op.u in global)
  }

  /** What has to be a bridge or a MACVLAN is one. */
  ghost predicate KindsFit(s: Net, global: map<Uuid, VirtualInterface>, op: NetOp)
    requires AllThere(s, global, op)
  {
    match op
    case OpDeleteBridge(u) => global[u].kind.BRIDGE?
    case OpDeleteMacvlan(u) => s.interfaces[u].kind.MACVLAN?
    case OpAttach(_, br) => s.interfaces[br].kind.BRIDGE?
    case OpDetach(u) => s.interfaces[u].parent.Some? ==> s.interfaces[s.interfaces[u].parent.value].kind.BRIDGE?
    case _ => true
  }

  /** What has to be connected is: an interface to the namespace or the bridge that it leaves. */
  ghost predicate Connected(s: Net, global: map<Uuid, VirtualInterface>, op: NetOp)
    requires AllThere(s, global, op) && KindsFit(s, global, op)
  {
    match op
    case OpDeleteInterfaceIn(u, ns) => s.interfaces[u].netNs == Some(ns) && u in s.namespaces[ns].interfaces
    case OpUnbind(u, cp) => s.interfaces[u].netNs == Some(s.connectionPoints[cp].netNs)
    case OpMoveDefault(u) =>
      s.interfaces[u].netNs.Some? ==> u in s.namespaces[s.interfaces[u].netNs.value].interfaces
    case OpDetach(u) =>
      s.interfaces[u].parent.Some? && u in s.interfaces[s.interfaces[u].parent.value].kind.childs
    case _ => true
  }

  /** The operation answers NotFound exactly when a record it needs is missing, WrongKind exactly when
      one is there but of the wrong kind, NotConnected exactly when they are not connected, and
      AlreadyPresent exactly for a connection point that is there. A failed operation changes nothing,
      but for a move into the default namespace, which has written the interface before its late errors. */
  ghost predicate Answers(s: Net, global: map<Uuid, VirtualInterface>, op: NetOp) {
    && ErrorOf(s, global, op)
       == (if !AllThere(s, global, op) then Some(NotFound)
           else if !KindsFit(s, global, op) then Some(WrongKind)
           else if !Connected(s, global, op) then Some(NotConnected)
           else if op.OpCreateConnectionPoint? && op.cpDraw.cp in s.connectionPoints then Some(AlreadyPresent)
           else None)
    && (ErrorOf(s, global, op).Some? ==>
          Effect(s, global, op)
          == if op.OpMoveDefault? && op.u in s.interfaces then
               s.(interfaces := s.interfaces[op.u := s.interfaces[op.u].(netNs := None)])
             else s)
  }

  lemma OperationAnswers(s: Net, global: map<Uuid, VirtualInterface>, op: NetOp)
    requires SelfKeyed(s)
    ensures Answers(s, global, op)
  {
    if Reconnects(op) { ReconnectAnswers(s, global, op); } else { MakeAnswers(s, global, op); }
  }

  lemma ReconnectAnswers(s: Net, global: map<Uuid, VirtualInterface>, op: NetOp)
    requires SelfKeyed(s) && Reconnects(op)
    ensures Answers(s, global, op)
  {
  }

  lemma MakeAnswers(s: Net, global: map<Uuid, VirtualInterface>, op: NetOp)
    requires SelfKeyed(s) && !Reconnects(op)
    ensures Answers(s, global, op)
  {
  }

  // ---------------------------------------------------------------- how far an operation reaches

  /** The interfaces that the operation may write or remove: those it names, those it draws, a VETH's
      partner, and a bridge to delete. */
  function InterfacesTouched(s: Net, op: NetOp): set<Uuid> {
    InterfacesNamed(s, op) + Made(op)
    + match op
      case OpDeleteInterface(u) => Partner(s, u)
      case OpDeleteInterfaceIn(u, _) => Partner(s, u)
      case OpDeleteBridge(u) => {u}
      case _ => {}
  }

  /** What the operation creates records under. */
  function Made(op: NetOp): set<Uuid> {
    match op
    case OpCreateConnectionPoint(d) => {d.cp}
    case OpCreateNamespace(f) => {f}
    case OpCreateInterface(_, kind, d) => if kind.VethConfig? then {d.internal, d.external} else {d.internal}
    case OpCreateInterfaceIn(_, kind, _, d) => if kind.VethConfig? then {d.internal, d.external} else {d.internal}
    case OpCreateBridge(_, f) => {f}
    case OpCreateMacvlan(_, f) => {f}
    case _ => {}
  }

  function Partner(s: Net, u: Uuid): set<Uuid> {
    if u in s.interfaces && s.interfaces[u].kind.VETH? then {s.interfaces[u].kind.pair} else {}
  }

  /** Outside the set nothing was written, removed or added. */
  ghost predicate SameOutside<V>(m: map<Uuid, V>, m': map<Uuid, V>, touched: set<Uuid>) {
    forall u | u !in touched :: (u in m' <==> u in m) && (u in m && u in m' ==> m'[u] == m[u])
  }

  lemma InterfacesReach(s: Net, global: map<Uuid, VirtualInterface>, op: NetOp)
    requires SelfKeyed(s)
    ensures SameOutside(s.interfaces, Effect(s, global, op).interfaces, InterfacesTouched(s, op))
  {
    if Reconnects(op) { ReconnectingInterfacesReach(s, global, op); } else { MakingInterfacesReach(s, global, op); }
  }

  lemma ReconnectingInterfacesReach(s: Net, global: map<Uuid, VirtualInterface>, op: NetOp)
    requires SelfKeyed(s) && Reconnects(op)
    ensures SameOutside(s.interfaces, Effect(s, global, op).interfaces, InterfacesTouched(s, op))
  {
    if Leaves(op) { LeavingInterfacesReach(s, global, op); } else { JoiningInterfacesReach(s, global, op); }
  }

  lemma LeavingInterfacesReach(s: Net, global: map<Uuid, VirtualInterface>, op: NetOp)
    requires SelfKeyed(s) && Leaves(op)
    ensures SameOutside(s.interfaces, Effect(s, global, op).interfaces, InterfacesTouched(s, op))
  {
  }

  lemma JoiningInterfacesReach(s: Net, global: map<Uuid, VirtualInterface>, op: NetOp)
    requires SelfKeyed(s) && Reconnects(op) && !Leaves(op)
    ensures SameOutside(s.interfaces, Effect(s, global, op).interfaces, InterfacesTouched(s, op))
  {
    if op.OpAttach? { AttachingReach(s, global, op); } else { OneInterfaceReach(s, global, op); }
  }

  lemma AttachingReach(s: Net, global: map<Uuid, VirtualInterface>, op: NetOp)
    requires SelfKeyed(s) && op.OpAttach?
    ensures SameOutside(s.interfaces, Effect(s, global, op).interfaces, InterfacesTouched(s, op))
  {
  }

  lemma OneInterfaceReach(s: Net, global: map<Uuid, VirtualInterface>, op: NetOp)
    requires SelfKeyed(s) && Reconnects(op) && !Leaves(op) && !op.OpAttach?
    ensures SameOutside(s.interfaces, Effect(s, global, op).interfaces, InterfacesTouched(s, op))
  {
  }

  lemma MakingInterfacesReach(s: Net, global: map<Uuid, VirtualInterface>, op: NetOp)
    requires SelfKeyed(s) && !Reconnects(op)
    ensures SameOutside(s.interfaces, Effect(s, global, op).interfaces, InterfacesTouched(s, op))
  {
    if Creates(op) { CreatingInterfacesReach(s, global, op); } else { DeletingInterfacesReach(s, global, op); }
  }

  lemma CreatingInterfacesReach(s: Net, global: map<Uuid, VirtualInterface>, op: NetOp)
    requires SelfKeyed(s) && Creates(op)
    ensures SameOutside(s.interfaces, Effect(s, global, op).interfaces, InterfacesTouched(s, op))
  {
  }

  lemma DeletingInterfacesReach(s: Net, global: map<Uuid, VirtualInterface>, op: NetOp)
    requires SelfKeyed(s) && !Reconnects(op) && !Creates(op)
    ensures SameOutside(s.interfaces, Effect(s, global, op).interfaces, InterfacesTouched(s, op))
  {
  }

  lemma NamespacesReach(s: Net, global: map<Uuid, VirtualInterface>, op: NetOp)
    requires SelfKeyed(s)
    ensures SameOutside(s.namespaces, Effect(s, global, op).namespaces, NamespacesNamed(s, op) + Made(op))
  {
    if Reconnects(op) { ReconnectingNamespacesReach(s, global, op); } else { MakingNamespacesReach(s, global, op); }
  }

  lemma ReconnectingNamespacesReach(s: Net, global: map<Uuid, VirtualInterface>, op: NetOp)
    requires SelfKeyed(s) && Reconnects(op)
    ensures SameOutside(s.namespaces, Effect(s, global, op).namespaces, NamespacesNamed(s, op) + Made(op))
  {
    if Leaves(op) { LeavingNamespacesReach(s, global, op); } else { JoiningNamespacesReach(s, global, op); }
  }

  lemma LeavingNamespacesReach(s: Net, global: map<Uuid, VirtualInterface>, op: NetOp)
    requires SelfKeyed(s) && Leaves(op)
    ensures SameOutside(s.namespaces, Effect(s, global, op).namespaces, NamespacesNamed(s, op) + Made(op))
  {
  }

  lemma JoiningNamespacesReach(s: Net, global: map<Uuid, VirtualInterface>, op: NetOp)
    requires SelfKeyed(s) && Reconnects(op) && !Leaves(op)
    ensures SameOutside(s.namespaces, Effect(s, global, op).namespaces, NamespacesNamed(s, op) + Made(op))
  {
  }

  lemma MakingNamespacesReach(s: Net, global: map<Uuid, VirtualInterface>, op: NetOp)
    requires SelfKeyed(s) && !Reconnects(op)
    ensures SameOutside(s.namespaces, Effect(s, global, op).namespaces, NamespacesNamed(s, op) + Made(op))
  {
    if Creates(op) { CreatingNamespacesReach(s, global, op); } else { DeletingNamespacesReach(s, global, op); }
  }

  lemma CreatingNamespacesReach(s: Net, global: map<Uuid, VirtualInterface>, op: NetOp)
    requires SelfKeyed(s) && Creates(op)
    ensures SameOutside(s.namespaces, Effect(s, global, op).namespaces, NamespacesNamed(s, op) + Made(op))
  {
  }

  lemma DeletingNamespacesReach(s: Net, global: map<Uuid, VirtualInterface>, op: NetOp)
    requires SelfKeyed(s) && !Reconnects(op) && !Creates(op)
    ensures SameOutside(s.namespaces, Effect(s, global, op).namespaces, NamespacesNamed(s, op) + Made(op))
  {
  }

  lemma PointsReach(s: Net, global: map<Uuid, VirtualInterface>, op: NetOp)
    requires SelfKeyed(s)
    ensures SameOutside(s.connectionPoints, Effect(s, global, op).connectionPoints, PointsNamed(op) + Made(op))
  {
    if Reconnects(op) { ReconnectingPointsReach(s, global, op); } else { MakingPointsReach(s, global, op); }
  }

  lemma ReconnectingPointsReach(s: Net, global: map<Uuid, VirtualInterface>, op: NetOp)
    requires SelfKeyed(s) && Reconnects(op)
    ensures SameOutside(s.connectionPoints, Effect(s, global, op).connectionPoints, PointsNamed(op) + Made(op))
  {
  }

  lemma MakingPointsReach(s: Net, global: map<Uuid, VirtualInterface>, op: NetOp)
    requires SelfKeyed(s) && !Reconnects(op)
    ensures SameOutside(s.connectionPoints, Effect(s, global, op).connectionPoints, PointsNamed(op) + Made(op))
  {
    if Creates(op) { CreatingPointsReach(s, global, op); } else { DeletingPointsReach(s, global, op); }
  }

  lemma CreatingPointsReach(s: Net, global: map<Uuid, VirtualInterface>, op: NetOp)
    requires SelfKeyed(s) && Creates(op)
    ensures SameOutside(s.connectionPoints, Effect(s, global, op).connectionPoints, PointsNamed(op) + Made(op))
  {
  }

  lemma DeletingPointsReach(s: Net, global: map<Uuid, VirtualInterface>, op: NetOp)
    requires SelfKeyed(s) && !Reconnects(op) && !Creates(op)
    ensures SameOutside(s.connectionPoints, Effect(s, global, op).connectionPoints, PointsNamed(op) + Made(op))
  {
  }

  /** A record that the operation neither names nor makes is the same afterwards, and none appears, but for
      a VETH's partner and a bridge to delete. */
  lemma OperationReach(s: Net, global: map<Uuid, VirtualInterface>, op: NetOp)
    requires SelfKeyed(s)
    ensures var t := Effect(s, global, op);
      && SameOutside(s.interfaces, t.interfaces, InterfacesTouched(s, op))
      && SameOutside(s.namespaces, t.namespaces, NamespacesNamed(s, op) + Made(op))
      && SameOutside(s.connectionPoints, t.connectionPoints, PointsNamed(op) + Made(op))
  {
    InterfacesReach(s, global, op);
    NamespacesReach(s, global, op);
    PointsReach(s, global, op);
  }

  // ---------------------------------------------------------------- what an operation returns

  ghost predicate Stores<V>(m: map<Uuid, V>, u: Uuid, r: Result<V>) {
    r.Ok? ==> u in m && m[u] == r.value
  }

  ghost predicate Removes<V>(m: map<Uuid, V>, m': map<Uuid, V>, u: Uuid, r: Result<V>) {
    r.Ok? ==> Stores(m, u, r) && u !in m'
  }

  /** A successful operation that creates or changes an interface returns what is stored then, and one that
      removes it returns what was stored; but for the record of a bridge to delete, which is the global one,
      and for an interface that is its own bridge, which is written once more. */
  ghost predicate InterfaceAnswered(s: Net, global: map<Uuid, VirtualInterface>, op: NetOp) {
    var t := Effect(s, global, op).interfaces;
    match op
    case OpCreateInterface(name, kind, d) => Stores(t, d.internal, CreateVirtualInterface(s, name, kind, d).1)
      || d.internal == d.external
    case OpCreateInterfaceIn(name, kind, ns, d) =>
      Stores(t, d.internal, CreateVirtualInterfaceInNamespace(s, name, kind, ns, d).1) || d.internal == d.external
    case OpDeleteInterface(u) => Removes(s.interfaces, t, u, DeleteVirtualInterface(s, u).1)
    case OpDeleteInterfaceIn(u, ns) => Removes(s.interfaces, t, u, DeleteVirtualInterfaceInNamespace(s, u, ns).1)
    case OpCreateBridge(name, f) => Stores(t, f, CreateVirtualBridge(s, name, f).1)
    case OpDeleteBridge(u) => Removes(global, t, u, DeleteVirtualBridge(s, global, u).1)
    case OpCreateMacvlan(name, f) => Stores(t, f, CreateMacvlanInterface(s, name, f).1)
    case OpDeleteMacvlan(u) => Removes(s.interfaces, t, u, DeleteMacvlanInterface(s, u).1)
    case OpBind(u, cp) => Stores(t, u, BindInterface(s, u, cp).1)
    case OpUnbind(u, cp) => Stores(t, u, UnbindInterface(s, u, cp).1)
    case OpMoveInto(u, ns) => Stores(t, u, MoveInterfaceIntoNamespace(s, u, ns).1)
    case OpMoveDefault(u) => Stores(t, u, MoveInterfaceIntoDefaultNamespace(s, u).1)
    case OpRename(u, name) => Stores(t, u, RenameVirtualInterface(s, u, name).1)
    case OpAttach(u, br) => Stores(t, u, AttachInterface(s, u, br).1) || u == br
    case OpDetach(u) => Stores(t, u, DetachInterface(s, u).1) || s.interfaces[u].parent == Some(u)
    case _ => t == s.interfaces
  }

  lemma InterfaceAnswers(s: Net, global: map<Uuid, VirtualInterface>, op: NetOp)
    requires SelfKeyed(s)
    ensures InterfaceAnswered(s, global, op)
  {
    if Reconnects(op) { ReconnectingAnswers(s, global, op); } else { MakingAnswers(s, global, op); }
  }

  lemma ReconnectingAnswers(s: Net, global: map<Uuid, VirtualInterface>, op: NetOp)
    requires SelfKeyed(s) && Reconnects(op)
    ensures InterfaceAnswered(s, global, op)
  {
  }

  lemma MakingAnswers(s: Net, global: map<Uuid, VirtualInterface>, op: NetOp)
    requires SelfKeyed(s) && !Reconnects(op)
    ensures InterfaceAnswered(s, global, op)
  {
  }

  /** The same for namespaces and connection points. */
  ghost predicate OtherAnswered(s: Net, global: map<Uuid, VirtualInterface>, op: NetOp) {
    var t := Effect(s, global, op);
    match op
    case OpCreateConnectionPoint(d) => Stores(t.connectionPoints, d.cp, CreateConnectionPoint(s, d).1)
    case OpDeleteConnectionPoint(u) =>
      DeleteConnectionPoint(s, u).1.Ok? ==> DeleteConnectionPoint(s, u).1.value == u && u !in t.connectionPoints
    case OpCreateNamespace(f) => Stores(t.namespaces, f, CreateNamespace(s, f).1)
    case OpDeleteNamespace(u) => Removes(s.namespaces, t.namespaces, u, DeleteNamespace(s, u).1)
    case _ => t.namespaces.Keys == s.namespaces.Keys && t.connectionPoints == s.connectionPoints
  }

  lemma OtherAnswers(s: Net, global: map<Uuid, VirtualInterface>, op: NetOp)
    requires SelfKeyed(s)
    ensures OtherAnswered(s, global, op)
  {
    if Reconnects(op) { ReconnectingOthers(s, global, op); } else { MakingOthers(s, global, op); }
  }

  lemma ReconnectingOthers(s: Net, global: map<Uuid, VirtualInterface>, op: NetOp)
    requires SelfKeyed(s) && Reconnects(op)
    ensures OtherAnswered(s, global, op)
  {
  }

  lemma MakingOthers(s: Net, global: map<Uuid, VirtualInterface>, op: NetOp)
    requires SelfKeyed(s) && !Reconnects(op)
    ensures OtherAnswered(s, global, op)
  {
    if Creates(op) { CreatingOthers(s, global, op); } else { DeletingOthers(s, global, op); }
  }

  lemma CreatingOthers(s: Net, global: map<Uuid, VirtualInterface>, op: NetOp)
    requires SelfKeyed(s) && Creates(op)
    ensures OtherAnswered(s, global, op)
  {
  }

  lemma DeletingOthers(s: Net, global: map<Uuid, VirtualInterface>, op: NetOp)
    requires SelfKeyed(s) && !Reconnects(op) && !Creates(op)
    ensures OtherAnswered(s, global, op)
  {
  }
}
