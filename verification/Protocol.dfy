/** The whole system as a step system: nodes with their local stores and subscriptions, the global
    store, and agent calls in flight. A step is one atomic access: a plugin call, the delivery of
    one subscription message, the last read of a poll loop, or one read or write of a catalog. */
module Protocol {
  import opened Model
  import opened Hypervisor
  import opened Scheduling

  /** An agent call that has made its plugin call: it polls the global store for a status, or it
      still has to remove the global record. home is the node whose plugin was called. */
  datatype Call = Await(home: Uuid, status: FDUState) | Removing(home: Uuid)

  /** A read that an open agent call has made and has yet to act on. */
  datatype Read =
    | ToDefine(n: Uuid, fdu: Uuid)   // define_fdu on n has the descriptor and found its hypervisor
    | ToOffload(fdu: Uuid)           // offload_fdu has found the descriptor
    | ToRemove(fdu: Uuid)            // and has listed no instance of it
    | ToOffloadEntity(e: Uuid)       // offload_entity has found the entity
    | ToRemoveEntity(e: Uuid)        // and has listed no instance of it
    | ToInstantiate(e: Uuid)         // schedule_entity has the entity's descriptor

  datatype World = World(
    nodes: map<Uuid, Node>,
    infos: map<Uuid, NodeInfo>,
    statuses: map<Uuid, NodeStatus>,
    plugins: map<Uuid, set<string>>,
    files: map<Uuid, set<string>>,
    catalog: map<Uuid, FDUDescriptor>,
    records: map<Uuid, FDURecord>,
    entities: map<Uuid, EntityDescriptor>,
    entityRecords: map<Uuid, EntityRecord>,
    inflight: map<Uuid, Call>,
    held: multiset<Read>,
    issued: set<Uuid>)

  datatype PluginOp = Configure(draws: ConfigureDraws) | Start | Stop | Clean | Undefine

  datatype Label =
    | Deliver(n: Uuid)
    | DefineCall(n: Uuid, fdu: Uuid, drawn: Uuid)
    | PluginCall(n: Uuid, op: PluginOp, i: Uuid)
    | Return(i: Uuid)
    | RemoveRecord(i: Uuid)
    | Fetch(read: Read)
    | Abandon(read: Read)
    | Onboard(desc: FDUDescriptor)
    | Offload(fdu: Uuid)
    | OnboardEntity(entity: EntityDescriptor)
    | OffloadEntity(e: Uuid)
    | Instantiate(rec: EntityRecord)
    | Publish(rec: EntityRecord)

  // ---------------------------------------------------------------- plugin calls

  function Apply(node: Node, catalog: map<Uuid, FDUDescriptor>, op: PluginOp, i: Uuid): (Node, Result<Uuid>)
    requires op.Configure? && i in node.local && node.local[i].fduUuid in catalog ==>
               DrawsFit(catalog[node.local[i].fduUuid], op.draws)
  {
    match op
    case Configure(d) => Hypervisor.Configure(node, catalog, i, d)
    case Start => Hypervisor.Start(node, i)
    case Stop => Hypervisor.Stop(node, i)
    case Clean => Hypervisor.Clean(node, i)
    case Undefine => Hypervisor.Undefine(node, i)
  }

  /** What the agent waits for after the plugin call. */
  function CallAfter(n: Uuid, op: PluginOp): Call {
    match op
    case Configure(_) => Await(n, CONFIGURED)
    case Start => Await(n, RUNNING)
    case Stop => Await(n, CONFIGURED)
    case Clean => Await(n, DEFINED)
    case Undefine => Removing(n)
  }

  /** The descriptor is catalogued, and its hypervisor is registered on the node. */
  predicate Hosted(w: World, n: Uuid, fdu: Uuid) {
    fdu in w.catalog && n in w.plugins && w.catalog[fdu].hypervisor in w.plugins[n]
  }

  predicate DrawsAllowed(w: World, n: Uuid, op: PluginOp, i: Uuid)
    requires n in w.nodes
  {
    op.Configure? ==>
      var local := w.nodes[n].local;
      && FreshDraws(op.draws, w.issued)
      && (i in local && local[i].fduUuid in w.catalog ==> DrawsFit(w.catalog[local[i].fduUuid], op.draws))
  }

  /** What a call must find for its read to succeed. Listing comes after finding. */
  predicate CanFetch(w: World, read: Read) {
    match read
    case ToDefine(n, fdu) => n in w.nodes && Hosted(w, n, fdu)
    case ToOffload(fdu) => fdu in w.catalog
    case ToRemove(fdu) => ToOffload(fdu) in w.held && forall i | i in w.records :: w.records[i].fduUuid != fdu
    case ToOffloadEntity(e) => e in w.entities
    case ToRemoveEntity(e) =>
      ToOffloadEntity(e) in w.held && forall r | r in w.entityRecords :: w.entityRecords[r].id != e
    case ToInstantiate(e) => e in w.entities
  }

  /** The reads held after one more: a listing takes the place of the finding. */
  function Opened(held: multiset<Read>, read: Read): multiset<Read> {
    match read
    case ToRemove(fdu) => held - multiset{ToOffload(fdu)} + multiset{read}
    case ToRemoveEntity(e) => held - multiset{ToOffloadEntity(e)} + multiset{read}
    case _ => held + multiset{read}
  }

  /** What onboard_entity stores: the entity and all its FDUs have UUIDs. */
  predicate Filled(entity: EntityDescriptor) {
    entity.uuid.Some? && forall k | 0 <= k < |entity.fdus| :: entity.fdus[k].uuid.Some?
  }

  // ---------------------------------------------------------------- steps

  predicate Enabled(w: World, l: Label) {
    match l
    case Deliver(n) => n in w.nodes && w.nodes[n].fifo != []
    case DefineCall(n, fdu, u) => n in w.nodes && ToDefine(n, fdu) in w.held && u !in w.issued
    case PluginCall(n, op, i) => n in w.nodes && DrawsAllowed(w, n, op, i)
    case Return(i) =>
      && i in w.inflight && w.inflight[i].Await? && i in w.records
      && w.records[i].status == w.inflight[i].status
    case RemoveRecord(i) => i in w.inflight && w.inflight[i].Removing? && i in w.records
    case Fetch(read) => CanFetch(w, read)
    case Abandon(read) => read in w.held
    case Onboard(desc) => desc.uuid.Some?
    case Offload(fdu) => ToRemove(fdu) in w.held
    case OnboardEntity(entity) => Filled(entity)
    case OffloadEntity(e) => ToRemoveEntity(e) in w.held
    case Instantiate(rec) => ToInstantiate(rec.id) in w.held && rec.uuid !in w.issued && rec.uuid !in w.entityRecords
    case Publish(rec) => rec.uuid in w.entityRecords && w.entityRecords[rec.uuid].id == rec.id
  }

  function Next(w: World, l: Label): World
    requires Enabled(w, l)
  {
    match l
    case Deliver(n) =>
      var node := w.nodes[n];
      var rec := node.fifo[0];
      w.(nodes := w.nodes[n := node.(fifo := node.fifo[1..])], records := w.records[rec.uuid := rec])
    case DefineCall(n, fdu, u) =>
      w.(nodes := w.nodes[n := Define(w.nodes[n], n, fdu, u).0],
         inflight := w.inflight[u := Await(n, DEFINED)],
         held := w.held - multiset{ToDefine(n, fdu)}, issued := w.issued + {u})
    case PluginCall(n, op, i) =>
      var (node, r) := Apply(w.nodes[n], w.catalog, op, i);
      w.(nodes := w.nodes[n := node],
         inflight := if r.Ok? then w.inflight[i := CallAfter(n, op)] else w.inflight,
         issued := if op.Configure? then IssueDraws(w.issued, op.draws) else w.issued)
    case Return(i) => w.(inflight := w.inflight - {i})
    case RemoveRecord(i) => w.(inflight := w.inflight - {i}, records := w.records - {i})
    case Fetch(read) => w.(held := Opened(w.held, read))
    case Abandon(read) => w.(held := w.held - multiset{read})
    case Onboard(desc) =>
      w.(catalog := w.catalog[desc.uuid.value := desc], issued := w.issued + {desc.uuid.value})
    case Offload(fdu) => w.(catalog := w.catalog - {fdu}, held := w.held - multiset{ToRemove(fdu)})
    case OnboardEntity(entity) =>
      w.(entities := w.entities[entity.uuid.value := entity],
         issued := w.issued + {entity.uuid.value} + set k | 0 <= k < |entity.fdus| :: entity.fdus[k].uuid.value)
    case OffloadEntity(e) => w.(entities := w.entities - {e}, held := w.held - multiset{ToRemoveEntity(e)})
    case Instantiate(rec) =>
      w.(entityRecords := w.entityRecords[rec.uuid := rec],
         held := w.held - multiset{ToInstantiate(rec.id)}, issued := w.issued + {rec.uuid})
    case Publish(rec) => w.(entityRecords := w.entityRecords[rec.uuid := rec])
  }

  /** Operations on one instance are serialised: a plugin call comes from an agent that has read the
      instance's global record, and nobody else has a call in flight or has changed the record since.
      What the agent then read of the catalog may be out of date. */
  predicate Serial(w: World, l: Label) {
    l.PluginCall? ==> l.i !in w.inflight && l.i in w.records && w.records[l.i].node == l.n
  }

  /** Only well-formed descriptors are onboarded. */
  ghost predicate WellFormedLabel(l: Label) {
    l.Onboard? ==> WellFormedDescriptor(l.desc)
  }

  /** A step changes at most the node whose plugin it calls or whose message it delivers. */
  lemma OtherNodesLeft(w: World, l: Label, n: Uuid)
    requires Enabled(w, l) && n in w.nodes && !((l.Deliver? || l.DefineCall? || l.PluginCall?) && l.n == n)
    ensures n in Next(w, l).nodes && Next(w, l).nodes[n] == w.nodes[n]
  {
    if !l.Deliver? && !l.DefineCall? && !l.PluginCall? { NodesLeft(w, l); }
  }

  lemma NodesLeft(w: World, l: Label)
    requires Enabled(w, l) && !l.Deliver? && !l.DefineCall? && !l.PluginCall?
    ensures Next(w, l).nodes == w.nodes
  {
    if l.Fetch? || l.Abandon? {
      ReadLeavesNodes(w, l);
    } else if l.Return? || l.RemoveRecord? {
      EndLeavesNodes(w, l);
    }
  }

  lemma ReadLeavesNodes(w: World, l: Label)
    requires Enabled(w, l) && (l.Fetch? || l.Abandon?)
    ensures Next(w, l).nodes == w.nodes
  {
  }

  lemma EndLeavesNodes(w: World, l: Label)
    requires Enabled(w, l) && (l.Return? || l.RemoveRecord?)
    ensures Next(w, l).nodes == w.nodes
  {
  }

  // ---------------------------------------------------------------- runs

  ghost predicate Legal(w: World, ls: seq<Label>)
    decreases |ls|
  {
    ls == [] || (Enabled(w, ls[0]) && Legal(Next(w, ls[0]), ls[1..]))
  }

  ghost function Exec(w: World, ls: seq<Label>): World
    requires Legal(w, ls)
    decreases |ls|
  {
    if ls == [] then w else Exec(Next(w, ls[0]), ls[1..])
  }

  ghost predicate SerialRun(w: World, ls: seq<Label>)
    requires Legal(w, ls)
    decreases |ls|
  {
    ls == [] || (Serial(w, ls[0]) && SerialRun(Next(w, ls[0]), ls[1..]))
  }

  lemma {:induction false} ExecAppend(w: World, ls: seq<Label>, l: Label)
    requires Legal(w, ls) && Enabled(Exec(w, ls), l)
    ensures Legal(w, ls + [l]) && Exec(w, ls + [l]) == Next(Exec(w, ls), l)
    ensures SerialRun(w, ls) && Serial(Exec(w, ls), l) ==> SerialRun(w, ls + [l])
    decreases |ls|
  {
    if ls == [] {
      assert [] + [l] == [l] && [l][1..] == [];
    } else {
      ExecAppend(Next(w, ls[0]), ls[1..], l);
      assert (ls + [l])[1..] == ls[1..] + [l] && (ls + [l])[0] == ls[0];
    }
  }

  lemma OneStep(w: World, l: Label)
    requires Enabled(w, l)
    ensures Legal(w, [l]) && Exec(w, [l]) == Next(w, l)
    ensures Serial(w, l) ==> SerialRun(w, [l])
  {
    ExecAppend(w, [], l);
    assert [] + [l] == [l];
  }

  lemma {:induction false} ExecSplit(w: World, a: seq<Label>, b: seq<Label>)
    requires Legal(w, a + b)
    ensures Legal(w, a) && Legal(Exec(w, a), b) && Exec(w, a + b) == Exec(Exec(w, a), b)
    decreases |a|
  {
    if a == [] {
      assert a + b == b;
    } else {
      assert (a + b)[0] == a[0] && (a + b)[1..] == a[1..] + b;
      ExecSplit(Next(w, a[0]), a[1..], b);
    }
  }

  lemma ExecCons(w: World, l: Label, ls: seq<Label>)
    requires Enabled(w, l) && Legal(Next(w, l), ls)
    ensures Legal(w, [l] + ls) && Exec(w, [l] + ls) == Exec(Next(w, l), ls)
  {
    assert ([l] + ls)[1..] == ls && ([l] + ls)[0] == l;
  }

  /** Node infos map every node to an agent service of its own, and no service is a node UUID. */
  ghost predicate Routed(w: World) {
    && w.infos.Keys == w.nodes.Keys
    && (forall n | n in w.infos :: w.infos[n].uuid == n)
    && (forall n, m | n in w.infos && m in w.infos && w.infos[n].agentServiceUuid == w.infos[m].agentServiceUuid ::
          n == m)
    && (forall n, m | n in w.infos && m in w.infos :: w.infos[n].agentServiceUuid != m)
  }

  ghost predicate Init(w: World) {
    && (forall n | n in w.nodes :: w.nodes[n] == EMPTY_NODE)
    && Routed(w)
    && w.catalog == map[] && w.records == map[] && w.entities == map[] && w.entityRecords == map[]
    && w.inflight == map[] && w.held == multiset{}
  }

  // ---------------------------------------------------------------- messages of one instance

  /** The messages about one instance, oldest first. */
  function Pending(fifo: seq<FDURecord>, i: Uuid): seq<FDURecord> {
    if fifo == [] then []
    else (if fifo[0].uuid == i then [fifo[0]] else []) + Pending(fifo[1..], i)
  }

  lemma {:induction false} PendingAppend(fifo: seq<FDURecord>, rec: FDURecord, i: Uuid)
    ensures Pending(fifo + [rec], i) == Pending(fifo, i) + if rec.uuid == i then [rec] else []
  {
    if fifo == [] {
      assert fifo + [rec] == [rec] && [rec][1..] == [];
    } else {
      PendingAppend(fifo[1..], rec, i);
      assert (fifo + [rec])[1..] == fifo[1..] + [rec];
    }
  }

  lemma {:induction false} PendingAre(fifo: seq<FDURecord>, i: Uuid)
    ensures forall rec :: rec in Pending(fifo, i) <==> rec in fifo && rec.uuid == i
  {
    if fifo != [] {
      assert fifo == [fifo[0]] + fifo[1..];
      PendingAre(fifo[1..], i);
    }
  }
}
