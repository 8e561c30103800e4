/** One agent call seen from outside: what it asks of the world, what it leaves behind, and what
    everybody else may do meanwhile. */
module Calls {
  import opened Model
  import opened Hypervisor
  import opened Conservation
  import opened Protocol
  import opened Runs
  import opened Replication
  import opened Resources

  // ---------------------------------------------------------------- whom a step touches

  /** The instance or entity record that a step changes, other than by delivering a message. */
  function Touched(l: Label): set<Uuid> {
    match l
    case DefineCall(_, _, u) => {u}
    case PluginCall(_, _, i) => {i}
    case Return(i) => {i}
    case RemoveRecord(i) => {i}
    case Instantiate(rec) => {rec.uuid}
    case Publish(rec) => {rec.uuid}
    case _ => {}
  }

  ghost predicate SameAt<K, V>(m: map<K, V>, m': map<K, V>, k: K) {
    (k in m <==> k in m') && (k in m && k in m' ==> m'[k] == m[k])
  }

  /** Nobody but a delivery touched j: its local records, its call in flight, its entity record,
      and, when no call is in flight, its global record are the same. */
  ghost predicate Held(w: World, w': World, j: Uuid) {
    && w'.nodes.Keys == w.nodes.Keys
    && (forall n | n in w.nodes :: SameAt(w.nodes[n].local, w'.nodes[n].local, j))
    && SameAt(w.inflight, w'.inflight, j)
    && SameAt(w.entityRecords, w'.entityRecords, j)
    && (j !in w.inflight ==> SameAt(w.records, w'.records, j))
  }

  lemma HeldTrans(w: World, w1: World, w2: World, j: Uuid)
    requires Held(w, w1, j) && Held(w1, w2, j)
    ensures Held(w, w2, j)
  {
    forall n | n in w.nodes ensures SameAt(w.nodes[n].local, w2.nodes[n].local, j) {
      assert SameAt(w.nodes[n].local, w1.nodes[n].local, j) && SameAt(w1.nodes[n].local, w2.nodes[n].local, j);
    }
  }

  lemma SameForHeld(w: World, w': World, j: Uuid)
    requires SameFor(w, w', j) && SameAt(w.entityRecords, w'.entityRecords, j)
    ensures Held(w, w', j)
  {
    forall n | n in w.nodes ensures SameAt(w.nodes[n].local, w'.nodes[n].local, j) {
      assert ViewSame(w.nodes[n], w'.nodes[n], j);
    }
  }

  /** Only an instance with a call in flight can have a message delivered. */
  lemma DeliveredInFlight(w: World, n: Uuid)
    requires Coherent(w) && Enabled(w, Deliver(n))
    ensures w.nodes[n].fifo[0].uuid in w.inflight
  {
    var i := w.nodes[n].fifo[0].uuid;
    assert InstanceOk(w, i);
    assert !AbsentAt(w.nodes[n], i);
  }

  lemma UntouchedHeld(w: World, l: Label, j: Uuid)
    requires Structure(w) && Coherent(w) && Enabled(w, l) && j !in Touched(l)
    ensures Held(w, Next(w, l), j)
  {
    if Subject(w, l) == Some(j) {
      DeliveredHeld(w, l.n);
    } else {
      StepElsewhere(w, l, j);
      EntityRecordHeld(w, l, j);
      SameForHeld(w, Next(w, l), j);
    }
  }

  lemma DeliveredHeld(w: World, n: Uuid)
    requires Structure(w) && Coherent(w) && Enabled(w, Deliver(n))
    ensures Held(w, Next(w, Deliver(n)), w.nodes[n].fifo[0].uuid)
  {
    DeliveredInFlight(w, n);
  }

  lemma EntityRecordHeld(w: World, l: Label, j: Uuid)
    requires Enabled(w, l) && j !in Touched(l)
    ensures SameAt(w.entityRecords, Next(w, l).entityRecords, j)
  {
    if l.PluginCall? { PluginEntityRecordsHeld(w, l.n, l.op, l.i); }
  }

  lemma PluginEntityRecordsHeld(w: World, n: Uuid, op: PluginOp, i: Uuid)
    requires Enabled(w, PluginCall(n, op, i))
    ensures Next(w, PluginCall(n, op, i)).entityRecords == w.entityRecords
  {
  }

  // ---------------------------------------------------------------- published statuses

  /** The statuses published for an entity record, in order. */
  function Statuses(trace: seq<Label>, e: Uuid): seq<EntityStatus> {
    if trace == [] then [] else Statuses(trace[..|trace| - 1], e) + StatusOf(trace[|trace| - 1], e)
  }

  function StatusOf(l: Label, e: Uuid): seq<EntityStatus> {
    match l
    case Instantiate(rec) => if rec.uuid == e then [rec.status] else []
    case Publish(rec) => if rec.uuid == e then [rec.status] else []
    case _ => []
  }

  lemma StatusesAppend(trace: seq<Label>, l: Label, e: Uuid)
    ensures Statuses(trace + [l], e) == Statuses(trace, e) + StatusOf(l, e)
  {
    assert (trace + [l])[..|trace|] == trace;
  }

  /** These statuses were published for e from t to t', in this order. */
  ghost predicate Shown(t: seq<Label>, t': seq<Label>, e: Uuid, statuses: seq<EntityStatus>) {
    Statuses(t', e) == Statuses(t, e) + statuses
  }

  lemma ShownTrans(t: seq<Label>, t1: seq<Label>, t2: seq<Label>, e: Uuid, a: seq<EntityStatus>, b: seq<EntityStatus>)
    requires Shown(t, t1, e, a) && Shown(t1, t2, e, b)
    ensures Shown(t, t2, e, a + b)
  {
  }

  lemma ShownNothing(t: seq<Label>, t1: seq<Label>, t2: seq<Label>, e: Uuid, a: seq<EntityStatus>)
    requires Shown(t, t1, e, a) && Shown(t1, t2, e, [])
    ensures Shown(t, t2, e, a)
  {
    ShownTrans(t, t1, t2, e, a, []);
    assert a + [] == a;
  }

  /** This step was taken from t to t'. */
  ghost predicate Did(t: seq<Label>, t': seq<Label>, l: Label) {
    exists j :: |t| <= j < |t'| && t'[j] == l
  }

  lemma StillDid(t: seq<Label>, t1: seq<Label>, t2: seq<Label>, t': seq<Label>, l: Label)
    requires Did(t1, t2, l) && t <= t1 && t2 <= t'
    ensures Did(t, t', l)
  {
    var j :| |t1| <= j < |t2| && t2[j] == l;
    assert t'[j] == l;
  }

  // ---------------------------------------------------------------- the frame of a call

  datatype History = History(world: World, trace: seq<Label>)

  ghost predicate SameSetup(w: World, w': World) {
    && w'.nodes.Keys == w.nodes.Keys && w'.infos == w.infos && w'.statuses == w.statuses
    && w'.plugins == w.plugins && w'.files == w.files
  }

  /** The labels added are plugin calls on own instances, or no plugin calls. */
  ghost predicate OwnCalls(t: seq<Label>, t': seq<Label>, own: set<Uuid>) {
    forall k | |t| <= k < |t'| && t'[k].PluginCall? :: t'[k].i in own
  }

  /** The history grew, and of the instances and entity records that are guarded (all of them when
      nobody else acts, the claimed ones otherwise) only the own ones were touched. */
  ghost predicate Steady(h: History, h': History, claimed: set<Uuid>, alone: bool, own: set<Uuid>) {
    && h.trace <= h'.trace
    && SameSetup(h.world, h'.world)
    && h.world.issued <= h'.world.issued
    && (forall j | (alone || j in claimed) && j !in own :: Held(h.world, h'.world, j))
    && (forall j | (alone || j in claimed) && j !in own :: Statuses(h'.trace, j) == Statuses(h.trace, j))
    && (alone ==> OwnCalls(h.trace, h'.trace, own))
  }

  /** The catalogs are the same, and no ill-formed descriptor was onboarded. */
  ghost predicate Calm(h: History, h': History) {
    && h'.world.catalog == h.world.catalog && h'.world.entities == h.world.entities
    && (WellFormedRun(h.trace) ==> WellFormedRun(h'.trace))
  }

  lemma SteadyRefl(h: History, claimed: set<Uuid>, alone: bool, own: set<Uuid>)
    ensures Steady(h, h, claimed, alone, own) && Calm(h, h)
  {
  }

  lemma HeldThrough(h: History, h1: History, h2: History, claimed: set<Uuid>, claimed1: set<Uuid>, alone: bool,
                    own: set<Uuid>, own1: set<Uuid>)
    requires Steady(h, h1, claimed, alone, own) && Steady(h1, h2, claimed1, alone, own1) && claimed <= claimed1
    ensures forall j | (alone || j in claimed) && j !in own + own1 :: Held(h.world, h2.world, j)
  {
    forall j | (alone || j in claimed) && j !in own + own1 ensures Held(h.world, h2.world, j) {
      HeldTrans(h.world, h1.world, h2.world, j);
    }
  }

  lemma OwnCallsThrough(t: seq<Label>, t1: seq<Label>, t2: seq<Label>, own: set<Uuid>, own1: set<Uuid>)
    requires t <= t1 <= t2 && OwnCalls(t, t1, own) && OwnCalls(t1, t2, own1)
    ensures OwnCalls(t, t2, own + own1)
  {
    forall k | |t| <= k < |t2| && t2[k].PluginCall? ensures t2[k].i in own + own1 {
      if k < |t1| { assert t2[k] == t1[k]; }
    }
  }

  lemma SteadyTrans(h: History, h1: History, h2: History, claimed: set<Uuid>, claimed1: set<Uuid>, alone: bool,
                    own: set<Uuid>, own1: set<Uuid>)
    requires Steady(h, h1, claimed, alone, own) && Steady(h1, h2, claimed1, alone, own1) && claimed <= claimed1
    ensures Steady(h, h2, claimed, alone, own + own1)
  {
    HeldThrough(h, h1, h2, claimed, claimed1, alone, own, own1);
    if alone { OwnCallsThrough(h.trace, h1.trace, h2.trace, own, own1); }
  }

  /** Touching more is allowed, and unguarded own instances need not be mentioned. */
  lemma SteadyWiden(h: History, h': History, claimed: set<Uuid>, alone: bool, own: set<Uuid>, own': set<Uuid>)
    requires Steady(h, h', claimed, alone, own)
    requires own <= own' || (!alone && own * claimed <= own')
    ensures Steady(h, h', claimed, alone, own')
  {
  }

  lemma StepSteady(h: History, l: Label, claimed: set<Uuid>, alone: bool)
    requires Structure(h.world) && Coherent(h.world) && Enabled(h.world, l)
    ensures Steady(h, History(Next(h.world, l), h.trace + [l]), claimed, alone, Touched(l))
  {
    StepIssues(h.world, l);
    SetupKept(h.world, l);
    forall j | j !in Touched(l) ensures Held(h.world, Next(h.world, l), j) {
      UntouchedHeld(h.world, l, j);
    }
    forall j | j !in Touched(l) ensures Statuses(h.trace + [l], j) == Statuses(h.trace, j) {
      UntouchedSilent(h.trace, l, j);
    }
  }

  lemma SetupKept(w: World, l: Label)
    requires Enabled(w, l)
    ensures SameSetup(w, Next(w, l))
  {
    StepIssues(w, l);
    if l.PluginCall? { PluginSetupKept(w, l.n, l.op, l.i); } else if Touched(l) == {} { UntouchingSetupKept(w, l); }
  }

  lemma PluginSetupKept(w: World, n: Uuid, op: PluginOp, i: Uuid)
    requires Enabled(w, PluginCall(n, op, i))
    ensures SameSetup(w, Next(w, PluginCall(n, op, i)))
  {
  }

  lemma UntouchingSetupKept(w: World, l: Label)
    requires Enabled(w, l) && Touched(l) == {}
    ensures SameSetup(w, Next(w, l))
  {
  }

  lemma UntouchedSilent(trace: seq<Label>, l: Label, j: Uuid)
    requires j !in Touched(l)
    ensures Statuses(trace + [l], j) == Statuses(trace, j)
  {
    StatusesAppend(trace, l, j);
    assert Statuses(trace, j) + [] == Statuses(trace, j);
  }

  /** The steps that change no catalog. */
  predicate LeavesCatalogs(l: Label) {
    !l.Onboard? && !l.Offload? && !l.OnboardEntity? && !l.OffloadEntity?
  }

  lemma StepCalm(h: History, l: Label)
    requires Enabled(h.world, l) && LeavesCatalogs(l)
    ensures Calm(h, History(Next(h.world, l), h.trace + [l]))
  {
    DescriptorsLeft(h.world, l);
    EntitiesLeft(h.world, l);
    assert WellFormedLabel(l);
  }

  lemma DescriptorsLeft(w: World, l: Label)
    requires Enabled(w, l) && LeavesCatalogs(l)
    ensures Next(w, l).catalog == w.catalog
  {
  }

  lemma EntitiesLeft(w: World, l: Label)
    requires Enabled(w, l) && LeavesCatalogs(l)
    ensures Next(w, l).entities == w.entities
  {
    if l.PluginCall? {
      PluginEntitiesLeft(w, l.n, l.op, l.i);
    } else if Touched(l) == {} {
      UntouchingEntitiesLeft(w, l);
    }
  }

  lemma UntouchingEntitiesLeft(w: World, l: Label)
    requires Enabled(w, l) && Touched(l) == {} && LeavesCatalogs(l)
    ensures Next(w, l).entities == w.entities
  {
  }

  lemma PluginEntitiesLeft(w: World, n: Uuid, op: PluginOp, i: Uuid)
    requires Enabled(w, PluginCall(n, op, i))
    ensures Next(w, PluginCall(n, op, i)).entities == w.entities
  {
  }

  // ---------------------------------------------------------------- messages ahead

  /** How many messages must be handled until the first one about i has been: 0 if there is none. */
  function Rank(fifo: seq<FDURecord>, i: Uuid): nat {
    if Pending(fifo, i) == [] then 0 else if fifo[0].uuid == i then 1 else 1 + Rank(fifo[1..], i)
  }

  lemma {:induction false} RankAppend(fifo: seq<FDURecord>, rec: FDURecord, i: Uuid)
    requires rec.uuid != i
    ensures Rank(fifo + [rec], i) == Rank(fifo, i)
  {
    PendingAppend(fifo, rec, i);
    if fifo != [] {
      RankAppend(fifo[1..], rec, i);
      assert (fifo + [rec])[1..] == fifo[1..] + [rec];
    }
  }

  /** Deliveries from n bring i's message closer; nothing else moves it. */
  lemma StepRank(w: World, l: Label, n: Uuid, i: Uuid)
    requires Structure(w) && Coherent(w) && Enabled(w, l) && i !in Touched(l) && n in w.nodes
    ensures n in Next(w, l).nodes
    ensures Rank(Next(w, l).nodes[n].fifo, i) <= Rank(w.nodes[n].fifo, i)
    ensures l == Deliver(n) && Rank(w.nodes[n].fifo, i) > 0 ==>
        Rank(Next(w, l).nodes[n].fifo, i) < Rank(w.nodes[n].fifo, i)
  {
    if l.Deliver? && l.n == n {
      DeliverRank(w, n, i);
    } else if l.DefineCall? && l.n == n {
      DefineRank(w, n, l.fdu, l.drawn, i);
    } else if l.PluginCall? && l.n == n {
      PluginRank(w, n, l.op, l.i, i);
    } else {
      FifoUntouched(w, l, n);
    }
  }

  lemma FifoUntouched(w: World, l: Label, n: Uuid)
    requires Enabled(w, l) && n in w.nodes && !((l.Deliver? || l.DefineCall? || l.PluginCall?) && l.n == n)
    ensures n in Next(w, l).nodes && Next(w, l).nodes[n].fifo == w.nodes[n].fifo
  {
  }

  lemma DefineRank(w: World, n: Uuid, fdu: Uuid, u: Uuid, i: Uuid)
    requires Enabled(w, DefineCall(n, fdu, u)) && i != u
    ensures Rank(Next(w, DefineCall(n, fdu, u)).nodes[n].fifo, i) == Rank(w.nodes[n].fifo, i)
  {
    RankAppend(w.nodes[n].fifo, Define(w.nodes[n], n, fdu, u).1.value, i);
  }

  lemma PluginRank(w: World, n: Uuid, op: PluginOp, j: Uuid, i: Uuid)
    requires Structure(w) && Enabled(w, PluginCall(n, op, j)) && i != j
    ensures Rank(Next(w, PluginCall(n, op, j)).nodes[n].fifo, i) == Rank(w.nodes[n].fifo, i)
  {
    PluginFifo(w, n, op, j);
    var wrote := Wrote(w, PluginCall(n, op, j), n);
    assert Next(w, PluginCall(n, op, j)).nodes[n].fifo == w.nodes[n].fifo + wrote;
    if wrote == [] {
      assert w.nodes[n].fifo + wrote == w.nodes[n].fifo;
    } else {
      assert wrote == [wrote[0]];
      RankAppend(w.nodes[n].fifo, wrote[0], i);
    }
  }

  lemma DeliverRank(w: World, n: Uuid, i: Uuid)
    requires Structure(w) && Coherent(w) && Enabled(w, Deliver(n))
    ensures Rank(w.nodes[n].fifo[1..], i) <= Rank(w.nodes[n].fifo, i)
    ensures Rank(w.nodes[n].fifo, i) > 0 ==> Rank(w.nodes[n].fifo[1..], i) < Rank(w.nodes[n].fifo, i)
  {
    var fifo := w.nodes[n].fifo;
    if fifo[0].uuid == i {
      assert InstanceOk(w, i);
      assert Pending(fifo, i) == [fifo[0]] + Pending(fifo[1..], i);
      assert !AbsentAt(w.nodes[n], i);
      assert |Pending(fifo, i)| == 1 + |Pending(fifo[1..], i)|;
    }
  }

  // ---------------------------------------------------------------- lifecycle calls

  datatype Verb = CONFIGURE | START | STOP | CLEAN

  /** The status a lifecycle call starts from, and the one it waits for. */
  function SourceOf(v: Verb): FDUState {
    match v case CONFIGURE => DEFINED case START => CONFIGURED case STOP => RUNNING case CLEAN => CONFIGURED
  }

  function TargetOf(v: Verb): FDUState {
    match v case CONFIGURE => CONFIGURED case START => RUNNING case STOP => CONFIGURED case CLEAN => DEFINED
  }

  predicate IsOp(v: Verb, op: PluginOp) {
    match v case CONFIGURE => op.Configure? case START => op.Start? case STOP => op.Stop? case CLEAN => op.Clean?
  }

  /** The plugin call of an operation that draws nothing. */
  function OpOf(v: Verb): PluginOp
    requires v != CONFIGURE
  {
    match v case START => Start case STOP => Stop case CLEAN => Clean
  }

  /** Why a call that needs a status is refused, whatever node it is made on. */
  function Refusal(w: World, from: FDUState, i: Uuid): Option<FError> {
    if i !in w.records || !Hosted(w, w.records[i].node, w.records[i].fduUuid) then Some(NotFound)
    else if w.records[i].status != from then Some(TransitionNotAllowed)
    else None
  }

  /** Why the plugin refuses a lifecycle call on an instance with this record, given the catalog it
      finds: the wrong status, or for configure a descriptor that is gone. */
  function PluginRefusal(catalog: map<Uuid, FDUDescriptor>, v: Verb, rec: FDURecord): Option<FError> {
    if rec.status != SourceOf(v) then Some(TransitionNotAllowed)
    else if v == CONFIGURE && rec.fduUuid !in catalog then Some(NotFound)
    else None
  }

  /** The record a successful call leaves, from the one it found. */
  ghost predicate Produced(catalog: map<Uuid, FDUDescriptor>, v: Verb, before: FDURecord, after: FDURecord) {
    match v
    case CONFIGURE =>
      && after == before.(interfaces := after.interfaces, connectionPoints := after.connectionPoints,
                          status := CONFIGURED, hypervisorSpecific := after.hypervisorSpecific)
      && before.fduUuid in catalog && FollowsDescriptor(catalog[before.fduUuid], after)
    case START => after == before.(status := RUNNING)
    case STOP => after == before.(status := CONFIGURED)
    case CLEAN => after == Cleaned(before)
  }

  /** The record lists the descriptor's interfaces in order, each bound one with the UUID of the
      record's connection point that its cp_id names. */
  ghost predicate FollowsDescriptor(desc: FDUDescriptor, rec: FDURecord) {
    && |rec.interfaces| == |desc.interfaces|
    && forall k | 0 <= k < |desc.interfaces| :: Follows(desc.interfaces[k], rec.interfaces[k], rec.connectionPoints)
  }

  ghost predicate Follows(intf: Interface, rec: FDURecordInterface, cps: seq<FDURecordConnectionPoint>) {
    && rec.name == intf.name && rec.kind == intf.kind && rec.macAddress == intf.macAddress
    && (rec.cpUuid.Some? <==> intf.cpId.Some?)
    && (intf.cpId.Some? ==> FDURecordConnectionPoint(rec.cpUuid.value, intf.cpId.value) in cps)
  }

  lemma ConfiguredFollows(node: Node, catalog: map<Uuid, FDUDescriptor>, i: Uuid, d: ConfigureDraws, issued: set<Uuid>)
    requires CanConfigure(node, catalog, i, d, issued) && Hypervisor.Configure(node, catalog, i, d).1.Ok?
    ensures i in Hypervisor.Configure(node, catalog, i, d).0.local
    ensures FollowsDescriptor(catalog[node.local[i].fduUuid], Hypervisor.Configure(node, catalog, i, d).0.local[i])
  {
    var table := ConfiguredRecordRealises(node, catalog, i, d, issued);
    var m := Hypervisor.Configure(node, catalog, i, d).0;
    var desc := catalog[node.local[i].fduUuid];
    forall k | 0 <= k < |desc.interfaces|
      ensures Follows(desc.interfaces[k], m.local[i].interfaces[k], m.local[i].connectionPoints)
    {
      assert Realises(m.net, d.ns, desc.interfaces[k], table, m.local[i].interfaces[k]);
    }
  }

  ghost predicate CallAnswer(w: World, v: Verb, i: Uuid, answer: Result<Uuid>)
    requires i in w.records
  {
    && (answer.Ok? <==> PluginRefusal(w.catalog, v, w.records[i]) == None)
    && (answer.Err? ==> PluginRefusal(w.catalog, v, w.records[i]) == Some(answer.error))
  }

  /** A plugin call that serialised operations allow now: the instance is at rest on this node. */
  ghost predicate Callable(w: World, n: Uuid, op: PluginOp, i: Uuid) {
    Structure(w) && Coherent(w) && Enabled(w, PluginCall(n, op, i)) && Serial(w, PluginCall(n, op, i))
  }

  /** With no call in flight the home node has the global record. */
  lemma QuietRecord(w: World, i: Uuid)
    requires Structure(w) && Coherent(w) && i !in w.inflight && i in w.records
    ensures var n := w.records[i].node;
      && n in w.nodes && i in w.nodes[n].local && w.nodes[n].local[i] == w.records[i]
      && w.records[i].uuid == i && Pending(w.nodes[n].fifo, i) == []
  {
    assert InstanceOk(w, i) && TidyRecord(w.records[i], i, w.records[i].node, w.issued);
  }

  lemma HomeConfigures(w: World, n: Uuid, d: ConfigureDraws, i: Uuid)
    requires AllConserved(w) && n in w.nodes && i in w.records && DrawsAllowed(w, n, PluginOp.Configure(d), i)
    requires i in w.nodes[n].local && w.nodes[n].local[i] == w.records[i] && w.records[i].uuid == i
    ensures var (m, r) := Hypervisor.Configure(w.nodes[n], w.catalog, i, d);
      && CallAnswer(w, CONFIGURE, i, r)
      && (r.Ok? ==> i in m.local && Produced(w.catalog, CONFIGURE, w.records[i], m.local[i]))
  {
    var node := w.nodes[n];
    assert NodeConserved(node, w.issued);
    if node.local[i].status == DEFINED && node.local[i].fduUuid in w.catalog {
      ConfigureFramed(node, w.catalog, i, d, w.issued);
      ConfiguredRecord(node, w.catalog, i, d, w.issued);
    }
  }

  lemma ConfiguredRecord(node: Node, catalog: map<Uuid, FDUDescriptor>, i: Uuid, d: ConfigureDraws, issued: set<Uuid>)
    requires CanConfigure(node, catalog, i, d, issued)
    ensures var (m, r) := Hypervisor.Configure(node, catalog, i, d);
      r.Ok? ==> i in m.local && Produced(catalog, CONFIGURE, node.local[i], m.local[i])
  {
    if Hypervisor.Configure(node, catalog, i, d).1.Ok? {
      ConfigureEffect(node, catalog, i, d, issued);
      ConfiguredFollows(node, catalog, i, d, issued);
    }
  }

  lemma HomeCleans(w: World, n: Uuid, i: Uuid)
    requires AllConserved(w) && n in w.nodes && i in w.records
    requires i in w.nodes[n].local && w.nodes[n].local[i] == w.records[i] && w.records[i].uuid == i
    ensures var (m, r) := Hypervisor.Clean(w.nodes[n], i);
      && CallAnswer(w, CLEAN, i, r)
      && (r.Ok? ==> i in m.local && Produced(w.catalog, CLEAN, w.records[i], m.local[i]))
  {
    NodeCleans(w, n, i);
    CleanedAnswer(w, n, i);
  }

  lemma CleanedAnswer(w: World, n: Uuid, i: Uuid)
    requires n in w.nodes && i in w.records && i in w.nodes[n].local && w.nodes[n].local[i] == w.records[i]
    requires var (m, r) := Hypervisor.Clean(w.nodes[n], i);
      && r == (if w.records[i].status == CONFIGURED then Ok(i) else Err(TransitionNotAllowed))
      && (r.Ok? ==> i in m.local && m.local[i] == Cleaned(w.records[i]))
    ensures var (m, r) := Hypervisor.Clean(w.nodes[n], i);
      && CallAnswer(w, CLEAN, i, r)
      && (r.Ok? ==> i in m.local && Produced(w.catalog, CLEAN, w.records[i], m.local[i]))
  {
  }

  lemma NodeCleans(w: World, n: Uuid, i: Uuid)
    requires AllConserved(w) && n in w.nodes && i in w.nodes[n].local && w.nodes[n].local[i].uuid == i
    ensures var (m, r) := Hypervisor.Clean(w.nodes[n], i);
      && r == (if w.nodes[n].local[i].status == CONFIGURED then Ok(i) else Err(TransitionNotAllowed))
      && (r.Ok? ==> i in m.local && m.local[i] == Cleaned(w.nodes[n].local[i]))
  {
    assert NodeConserved(w.nodes[n], w.issued);
    CleanedRecord(w.nodes[n], i);
  }

  lemma CleanedRecord(node: Node, i: Uuid)
    requires Conserved(node.net, node.local) && i in node.local && node.local[i].uuid == i
    ensures var (m, r) := Hypervisor.Clean(node, i);
      && r == (if node.local[i].status == CONFIGURED then Ok(i) else Err(TransitionNotAllowed))
      && (r.Ok? ==> i in m.local && m.local[i] == Cleaned(node.local[i]))
  {
    if node.local[i].status == CONFIGURED { CleanNeverFails(node, i); }
  }

  lemma SwitchAnswer(w: World, n: Uuid, v: Verb, op: PluginOp, i: Uuid)
    requires Callable(w, n, op, i)
    requires (v == START || v == STOP) && IsOp(v, op)
    ensures var (m, r) := Apply(w.nodes[n], w.catalog, op, i);
      && CallAnswer(w, v, i, r)
      && (r.Ok? ==> i in m.local && Produced(w.catalog, v, w.records[i], m.local[i]))
  {
    QuietRecord(w, i);
  }

  /** The plugin's answer to a lifecycle call, and the record it writes. */
  lemma LifecycleAnswer(w: World, n: Uuid, v: Verb, op: PluginOp, i: Uuid)
    requires Callable(w, n, op, i) && AllConserved(w) && IsOp(v, op)
    ensures var (m, r) := Apply(w.nodes[n], w.catalog, op, i);
      && CallAnswer(w, v, i, r)
      && (r.Ok? ==> i in m.local && Produced(w.catalog, v, w.records[i], m.local[i]))
  {
    match v
    case CONFIGURE => QuietRecord(w, i); HomeConfigures(w, n, op.draws, i);
    case CLEAN => QuietRecord(w, i); HomeCleans(w, n, i);
    case _ => SwitchAnswer(w, n, v, op, i);
  }

  /** The plugin's answer to an undefine. */
  lemma UndefineAnswer(w: World, n: Uuid, i: Uuid)
    requires Callable(w, n, Undefine, i)
    ensures Apply(w.nodes[n], w.catalog, Undefine, i).1
         == if w.records[i].status == DEFINED then Ok(i) else Err(TransitionNotAllowed)
  {
    QuietRecord(w, i);
  }

  /** What every answered call does to the instance's records, whether or not descriptors are
      well formed. */
  lemma AnswerEffect(w: World, n: Uuid, op: PluginOp, i: Uuid)
    requires Callable(w, n, op, i)
    ensures var (m, r) := Apply(w.nodes[n], w.catalog, op, i);
      && (r.Err? ==> m.local == w.nodes[n].local)
      && (r.Ok? && !op.Undefine? ==>
            i in m.local && m.local[i].node == n && m.local[i].fduUuid == w.records[i].fduUuid
              && m.local[i].status == CallAfter(n, op).status)
  {
    QuietRecord(w, i);
    ApplyEffect(w.nodes[n], w.catalog, op, i);
  }

  lemma RefusedHeld(w: World, n: Uuid, op: PluginOp, i: Uuid)
    requires Callable(w, n, op, i)
    requires Apply(w.nodes[n], w.catalog, op, i).1.Err?
    ensures Held(w, Next(w, PluginCall(n, op, i)), i)
  {
    AnswerEffect(w, n, op, i);
  }

  /** The status that a plugin call starts from. */
  function StartsFrom(op: PluginOp): FDUState {
    match op case Configure(_) => DEFINED case Start => CONFIGURED case Stop => RUNNING case Clean => CONFIGURED
             case Undefine => DEFINED
  }

  /** A plugin call on an instance that the node does not have, that has another status, or that is to be
      configured from a descriptor that is gone, is refused in this order and changes nothing. */
  lemma RefusedUntouched(node: Node, catalog: map<Uuid, FDUDescriptor>, op: PluginOp, i: Uuid)
    requires op.Configure? && i in node.local && node.local[i].fduUuid in catalog ==>
               DrawsFit(catalog[node.local[i].fduUuid], op.draws)
    ensures i !in node.local ==> Apply(node, catalog, op, i) == (node, Err(NotFound))
    ensures i in node.local && node.local[i].status != StartsFrom(op) ==>
        Apply(node, catalog, op, i) == (node, Err(TransitionNotAllowed))
    ensures op.Configure? && i in node.local && node.local[i].status == DEFINED && node.local[i].fduUuid !in catalog ==>
        Apply(node, catalog, op, i) == (node, Err(NotFound))
  {
  }

  /** No plugin call finds a descriptor malformed, or answers as a draw of a UUID in use would. */
  lemma NeverMalformed(node: Node, catalog: map<Uuid, FDUDescriptor>, op: PluginOp, i: Uuid)
    requires op.Configure? && i in node.local && node.local[i].fduUuid in catalog ==>
               DrawsFit(catalog[node.local[i].fduUuid], op.draws)
    ensures PluginAnswer(Apply(node, catalog, op, i).1)
  {
    match op
    case Configure(d) => ConfigureNotMalformed(node, catalog, i, d);
    case Clean => CleanNotMalformed(node, i);
    case _ =>
  }

  // ---------------------------------------------------------------- instances at rest

  /** The instance has this record everywhere, and no call is in flight. */
  ghost predicate AtRest(w: World, i: Uuid, rec: FDURecord) {
    i !in w.inflight && i in w.records && w.records[i] == rec && rec.uuid == i
  }

  lemma RestHeld(w: World, w': World, i: Uuid, rec: FDURecord)
    requires AtRest(w, i, rec) && Held(w, w', i)
    ensures AtRest(w', i, rec)
  {
  }
}
