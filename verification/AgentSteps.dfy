/** The single steps that agent calls are made of, each with everything a caller needs to know
    about it: what it touches, what it leaves, and what a poll loop may read meanwhile. */
module AgentSteps {
  import opened Model
  import opened Hypervisor
  import opened Scheduling
  import opened Protocol
  import opened Runs
  import opened Replication
  import opened Resources
  import opened Integrity
  import opened Calls

  /** What a drawn UUID that is already in use would amount to. */
  const COLLISION := UUIDError("collision")

  /** Where random choices come from: the next UUID, and what configuring a descriptor draws, when these
      UUIDs are in use. */
  datatype Random = Random(uuid: set<Uuid> -> Uuid, configure: (set<Uuid>, FDUDescriptor) -> ConfigureDraws)

  /** What configuring the descriptor draws fits it, and is not in use. */
  predicate DrawsFree(random: Random, issued: set<Uuid>, desc: FDUDescriptor) {
    var draws := random.configure(issued, desc);
    FreshDraws(draws, issued) && DrawsFit(desc, draws)
  }

  /** The plugin is to draw for the instance with this record, and the draws are in use. */
  predicate Collided(random: Random, w: World, v: Verb, rec: FDURecord) {
    && v == CONFIGURE && PluginRefusal(w.catalog, v, rec) == None
    && !DrawsFree(random, w.issued, w.catalog[rec.fduUuid])
  }

  /** w is what the serialised run leads to from the start. */
  ghost predicate Reached(origin: World, trace: seq<Label>, w: World) {
    Init(origin) && Legal(origin, trace) && SerialRun(origin, trace) && w == Exec(origin, trace)
  }

  lemma ReachedFacts(origin: World, trace: seq<Label>, w: World)
    requires Reached(origin, trace, w)
    ensures Structure(w) && Coherent(w) && Routed(w)
  {
    ReachableCoherent(origin, trace);
    RunRouted(origin, trace);
  }

  lemma ReachedRouted(origin: World, trace: seq<Label>, w: World)
    requires Reached(origin, trace, w)
    ensures Routed(w)
  {
    RunRouted(origin, trace);
  }

  lemma ReachedConserved(origin: World, trace: seq<Label>, w: World)
    requires Reached(origin, trace, w) && WellFormedRun(trace)
    ensures AllConserved(w)
  {
    InitStructure(origin);
    InitConserved(origin);
    RunConserves(origin, trace);
  }

  /** The labels between two histories of the same run, as a run of its own. */
  lemma Between(origin: World, h: History, h': History) returns (ls: seq<Label>)
    requires Reached(origin, h.trace, h.world) && Reached(origin, h'.trace, h'.world) && h.trace <= h'.trace
    ensures h'.trace == h.trace + ls && Legal(h.world, ls) && Exec(h.world, ls) == h'.world
  {
    ls := h'.trace[|h.trace|..];
    assert h'.trace == h.trace + ls;
    ExecSplit(origin, h.trace, ls);
  }

  /** What is in use stays in use. */
  lemma IssuedLater(origin: World, h: History, h': History)
    requires Reached(origin, h.trace, h.world) && Reached(origin, h'.trace, h'.world) && h.trace <= h'.trace
    ensures h.world.issued <= h'.world.issued
  {
    var ls := Between(origin, h, h');
    RunIssues(h.world, ls);
  }

  lemma {:induction false} RunIssues(w: World, ls: seq<Label>)
    requires Legal(w, ls)
    ensures w.issued <= Exec(w, ls).issued
    decreases |ls|
  {
    if ls != [] {
      StepIssues(w, ls[0]);
      RunIssues(Next(w, ls[0]), ls[1..]);
    }
  }

  lemma {:induction false} RunRouted(w: World, ls: seq<Label>)
    requires Routed(w) && Legal(w, ls)
    ensures Routed(Exec(w, ls))
    decreases |ls|
  {
    if ls != [] {
      StepRouted(w, ls[0]);
      RunRouted(Next(w, ls[0]), ls[1..]);
    }
  }

  lemma StepRouted(w: World, l: Label)
    requires Routed(w) && Enabled(w, l)
    ensures Routed(Next(w, l))
  {
    StepIssues(w, l);
    SetupKept(w, l);
  }

  /** No UUID names both an entity record and an instance. */
  ghost predicate IdsApart(w: World) {
    && w.entityRecords.Keys <= w.issued
    && (forall e | e in w.entityRecords :: e !in w.inflight && e !in w.records)
    && (forall n, e | n in w.nodes && e in w.entityRecords :: e !in w.nodes[n].local)
  }

  lemma StepIdsApart(w: World, l: Label)
    requires IdsApart(w) && Structure(w) && Coherent(w) && Enabled(w, l)
    ensures IdsApart(Next(w, l))
  {
    match l
    case Deliver(n) => DeliveredInFlight(w, n);
    case PluginCall(n, op, i) => PluginIdsApart(w, n, op, i);
    case Instantiate(rec) => UndrawnUnknown(w, rec.uuid); UndrawnAbsent(w, rec.uuid); InstantiateIdsApart(w, rec);
    case _ => OtherIdsApart(w, l);
  }

  lemma OtherIdsApart(w: World, l: Label)
    requires IdsApart(w) && Enabled(w, l) && !l.Deliver? && !l.PluginCall? && !l.Instantiate?
    ensures IdsApart(Next(w, l))
  {
  }

  lemma InstantiateIdsApart(w: World, rec: EntityRecord)
    requires IdsApart(w) && Enabled(w, Instantiate(rec)) && AbsentEverywhere(w, rec.uuid) && rec.uuid !in w.inflight
    requires rec.uuid !in w.records
    ensures IdsApart(Next(w, Instantiate(rec)))
  {
    forall n | n in w.nodes ensures rec.uuid !in w.nodes[n].local {
      assert AbsentAt(w.nodes[n], rec.uuid);
    }
  }

  lemma PluginIdsApart(w: World, n: Uuid, op: PluginOp, i: Uuid)
    requires IdsApart(w) && Structure(w) && Enabled(w, PluginCall(n, op, i))
    ensures IdsApart(Next(w, PluginCall(n, op, i)))
  {
    StepIssues(w, PluginCall(n, op, i));
    LocalShrinks(w, n, op, i);
    PluginEffect(w, n, op, i);
    ShrunkIdsApart(w, Next(w, PluginCall(n, op, i)), n);
  }

  lemma LocalShrinks(w: World, n: Uuid, op: PluginOp, i: Uuid)
    requires Structure(w) && Enabled(w, PluginCall(n, op, i))
    ensures Apply(w.nodes[n], w.catalog, op, i).0.local.Keys <= w.nodes[n].local.Keys
  {
    if i in w.nodes[n].local { OwnRecord(w, n, i); }
    ApplyNames(w.nodes[n], w.catalog, op, i);
  }

  lemma ShrunkIdsApart(w: World, w': World, n: Uuid)
    requires IdsApart(w) && n in w.nodes && n in w'.nodes && w'.nodes == w.nodes[n := w'.nodes[n]]
    requires w.issued <= w'.issued
    requires w'.nodes[n].local.Keys <= w.nodes[n].local.Keys && w'.records == w.records
    requires w'.entityRecords == w.entityRecords
    requires w'.inflight.Keys <= w.inflight.Keys + w.nodes[n].local.Keys
    ensures IdsApart(w')
  {
  }

  lemma {:induction false} RunIdsApart(w: World, ls: seq<Label>)
    requires IdsApart(w) && Structure(w) && Coherent(w) && Legal(w, ls) && SerialRun(w, ls)
    ensures IdsApart(Exec(w, ls))
    decreases |ls|
  {
    if ls != [] {
      StepIdsApart(w, ls[0]);
      StepKeepsStructure(w, ls[0]);
      StepKeepsCoherent(w, ls[0]);
      RunIdsApart(Next(w, ls[0]), ls[1..]);
    }
  }

  lemma ReachedIdsApart(origin: World, trace: seq<Label>, w: World)
    requires Reached(origin, trace, w)
    ensures IdsApart(w)
  {
    ReachableCoherent(origin, []);
    RunIdsApart(origin, trace);
  }

  /** No status was published for a UUID that was never drawn. */
  lemma UndrawnSilent(origin: World, h: History, e: Uuid)
    requires Reached(origin, h.trace, h.world) && e !in h.world.issued
    ensures Statuses(h.trace, e) == []
  {
    RunSilent(origin, h.trace, e);
  }

  lemma {:induction false} RunSilent(w: World, trace: seq<Label>, e: Uuid)
    requires w.entityRecords.Keys <= w.issued && Legal(w, trace)
    ensures Exec(w, trace).entityRecords.Keys <= Exec(w, trace).issued
    ensures e !in Exec(w, trace).issued ==> Statuses(trace, e) == []
    decreases |trace|
  {
    if trace != [] {
      var before, l := trace[..|trace| - 1], trace[|trace| - 1];
      assert trace == before + [l];
      ExecSplit(w, before, [l]);
      RunSilent(w, before, e);
      StepSilent(Exec(w, before), l, e);
      OneStep(Exec(w, before), l);
    }
  }

  lemma StepSilent(w: World, l: Label, e: Uuid)
    requires w.entityRecords.Keys <= w.issued && Enabled(w, l)
    ensures Next(w, l).entityRecords.Keys <= Next(w, l).issued && w.issued <= Next(w, l).issued
    ensures e !in Next(w, l).issued ==> StatusOf(l, e) == []
  {
    StepIssues(w, l);
    if l.PluginCall? { PluginEntityRecordsHeld(w, l.n, l.op, l.i); }
  }

  // ---------------------------------------------------------------- everybody else

  /** What others may do: deliver messages, and unless nobody else acts, anything that does not
      touch what this client has claimed and does not act on reads that this client has made. */
  predicate Permitted(w: World, l: Label, claimed: set<Uuid>, kept: multiset<Read>, alone: bool)
    requires Enabled(w, l)
  {
    if alone then l.Deliver? else Touched(l) !! claimed && kept <= Next(w, l).held
  }

  lemma PermittedKeeps(w: World, l: Label, claimed: set<Uuid>, kept: multiset<Read>, alone: bool)
    requires Enabled(w, l) && Permitted(w, l, claimed, kept, alone) && kept <= w.held
    ensures kept <= Next(w, l).held
  {
  }

  /** Node n's messages about i did not move back. */
  ghost predicate CloserAt(w: World, w': World, n: Uuid, i: Uuid)
    requires n in w.nodes && n in w'.nodes
  {
    Rank(w'.nodes[n].fifo, i) <= Rank(w.nodes[n].fifo, i)
  }

  ghost predicate Closer(w: World, w': World, claimed: set<Uuid>, alone: bool) {
    && w'.nodes.Keys == w.nodes.Keys
    && forall n, i | n in w.nodes && (alone || i in claimed) :: CloserAt(w, w', n, i)
  }

  ghost predicate Waited(h: History, h': History, claimed: set<Uuid>, alone: bool) {
    && Steady(h, h', claimed, alone, {})
    && Closer(h.world, h'.world, claimed, alone)
    && (alone ==> Calm(h, h'))
  }

  lemma PermittedStep(h: History, l: Label, claimed: set<Uuid>, kept: multiset<Read>, alone: bool)
    requires Structure(h.world) && Coherent(h.world) && Enabled(h.world, l)
    requires Permitted(h.world, l, claimed, kept, alone)
    ensures Waited(h, History(Next(h.world, l), h.trace + [l]), claimed, alone)
  {
    var h' := History(Next(h.world, l), h.trace + [l]);
    StepSteady(h, l, claimed, alone);
    SteadyWiden(h, h', claimed, alone, Touched(l), {});
    StepIssues(h.world, l);
    forall n, i | n in h.world.nodes && (alone || i in claimed)
      ensures CloserAt(h.world, h'.world, n, i)
    {
      StepRank(h.world, l, n, i);
    }
    if alone { StepCalm(h, l); }
  }

  lemma WaitedTrans(h: History, h1: History, h2: History, claimed: set<Uuid>, alone: bool)
    requires Waited(h, h1, claimed, alone) && Waited(h1, h2, claimed, alone)
    ensures Waited(h, h2, claimed, alone)
  {
    var none: set<Uuid> := {};
    SteadyTrans(h, h1, h2, claimed, claimed, alone, none, none);
    assert none + none == none;
    forall n, i | n in h.world.nodes && (alone || i in claimed)
      ensures CloserAt(h.world, h2.world, n, i)
    {
      assert CloserAt(h.world, h1.world, n, i) && CloserAt(h1.world, h2.world, n, i);
    }
  }

  /** A message about i, if there was one on node n, is closer or handled. */
  ghost predicate Advanced(w: World, w': World, n: Uuid, i: Uuid) {
    n in w.nodes && n in w'.nodes
      && (Rank(w.nodes[n].fifo, i) > 0 ==> Rank(w'.nodes[n].fifo, i) < Rank(w.nodes[n].fifo, i))
  }

  lemma DeliverStep(origin: World, h: History, claimed: set<Uuid>, alone: bool, n: Uuid) returns (h': History)
    requires Reached(origin, h.trace, h.world) && Enabled(h.world, Deliver(n)) && claimed <= h.world.issued
    ensures h' == History(Next(h.world, Deliver(n)), h.trace + [Deliver(n)])
    ensures Reached(origin, h'.trace, h'.world) && claimed <= h'.world.issued
    ensures Waited(h, h', claimed, alone)
    ensures forall i | alone || i in claimed :: Advanced(h.world, h'.world, n, i)
  {
    h' := History(Next(h.world, Deliver(n)), h.trace + [Deliver(n)]);
    ReachedFacts(origin, h.trace, h.world);
    ReachedStep(origin, h, Deliver(n));
    PermittedStep(h, Deliver(n), claimed, multiset{}, alone);
    forall i | alone || i in claimed ensures Advanced(h.world, h'.world, n, i) {
      StepRank(h.world, Deliver(n), n, i);
    }
  }

  lemma SleptThrough(h: History, h1: History, h2: History, claimed: set<Uuid>, alone: bool, n: Uuid)
    requires Waited(h, h1, claimed, alone) && Waited(h1, h2, claimed, alone) && n in h.world.nodes
    requires forall i | alone || i in claimed :: Advanced(h1.world, h2.world, n, i)
    ensures Waited(h, h2, claimed, alone)
    ensures forall i | alone || i in claimed :: Advanced(h.world, h2.world, n, i)
  {
    WaitedTrans(h, h1, h2, claimed, alone);
    forall i | alone || i in claimed ensures Advanced(h.world, h2.world, n, i) {
      assert CloserAt(h.world, h1.world, n, i) && Advanced(h1.world, h2.world, n, i);
    }
  }

  lemma NothingToDeliver(h: History, h1: History, claimed: set<Uuid>, alone: bool, n: Uuid)
    requires Waited(h, h1, claimed, alone) && n in h.world.nodes && h1.world.nodes[n].fifo == []
    ensures forall i | alone || i in claimed :: Advanced(h.world, h1.world, n, i)
  {
  }

  /** What a poll loop can read: its own call's record or one with another status, never an
      error status; while it must wait, its message is still on the way. */
  lemma PollSees(w: World, n: Uuid, i: Uuid, status: FDUState)
    requires Structure(w) && Coherent(w) && i in w.inflight && w.inflight[i] == Await(n, status)
    ensures n in w.nodes && i in w.nodes[n].local
    ensures i in w.records ==> w.records[i].uuid == i && !w.records[i].status.ERROR?
    ensures i in w.records && w.records[i].status == status ==> w.records[i] == w.nodes[n].local[i]
    ensures i !in w.records || w.records[i].status != status ==> Rank(w.nodes[n].fifo, i) > 0
  {
    assert InstanceOk(w, i);
    if i in w.records { assert TidyRecord(w.records[i], i, w.records[i].node, w.issued); }
  }

  lemma HeldCall(w: World, w': World, n: Uuid, i: Uuid)
    requires Held(w, w', i) && n in w.nodes && i in w.nodes[n].local && i in w.inflight
    ensures n in w'.nodes && i in w'.nodes[n].local && w'.nodes[n].local[i] == w.nodes[n].local[i]
    ensures i in w'.inflight && w'.inflight[i] == w.inflight[i]
  {
    assert SameAt(w.nodes[n].local, w'.nodes[n].local, i);
  }

  /** From h to h' only others acted on anything but i, and i's call is still in flight. */
  ghost predicate Polling(h: History, h': History, claimed: set<Uuid>, alone: bool, i: Uuid) {
    && Steady(h, h', claimed, alone, {i}) && (alone ==> Calm(h, h'))
    && Held(h.world, h'.world, i)
  }

  lemma PollingWaited(h: History, h1: History, h2: History, claimed: set<Uuid>, alone: bool, i: Uuid)
    requires Polling(h, h1, claimed, alone, i) && Waited(h1, h2, claimed, alone) && i in claimed
    ensures Polling(h, h2, claimed, alone, i)
  {
    SteadyTrans(h, h1, h2, claimed, claimed, alone, {i}, {});
    SteadyWiden(h, h2, claimed, alone, {i} + {}, {i});
    HeldTrans(h.world, h1.world, h2.world, i);
  }

  lemma PollingReturned(h: History, h1: History, h2: History, claimed: set<Uuid>, alone: bool, i: Uuid)
    requires Polling(h, h1, claimed, alone, i) && Enabled(h1.world, Return(i))
    requires h2 == History(Next(h1.world, Return(i)), h1.trace + [Return(i)]) && Steady(h1, h2, claimed, alone, {i})
    ensures Steady(h, h2, claimed, alone, {i}) && (alone ==> Calm(h, h2))
  {
    StepCalm(h1, Return(i));
    SteadyTrans(h, h1, h2, claimed, claimed, alone, {i}, {i});
    SteadyWiden(h, h2, claimed, alone, {i} + {i}, {i});
  }

  lemma PollStarts(origin: World, h: History, claimed: set<Uuid>, alone: bool, n: Uuid, i: Uuid, status: FDUState)
    requires Reached(origin, h.trace, h.world) && i in h.world.inflight && h.world.inflight[i] == Await(n, status)
    ensures n in h.world.nodes && i in h.world.nodes[n].local && Polling(h, h, claimed, alone, i)
  {
    ReachedFacts(origin, h.trace, h.world);
    PollSees(h.world, n, i, status);
    SteadyRefl(h, claimed, alone, {i});
  }

  /** What the poll loop reads at any time during its call. */
  lemma PollReads(origin: World, h: History, h': History, claimed: set<Uuid>, alone: bool, n: Uuid, i: Uuid,
                  status: FDUState)
    requires Polling(h, h', claimed, alone, i) && Reached(origin, h'.trace, h'.world)
    requires i in h.world.inflight && h.world.inflight[i] == Await(n, status)
    requires n in h.world.nodes && i in h.world.nodes[n].local
    ensures var w := h'.world;
      && n in w.nodes && i in w.inflight && w.inflight[i] == Await(n, status)
      && (i in w.records ==> w.records[i].uuid == i && !w.records[i].status.ERROR?)
      && (i in w.records && w.records[i].status == status ==> w.records[i] == h.world.nodes[n].local[i])
      && (i !in w.records || w.records[i].status != status ==> Rank(w.nodes[n].fifo, i) > 0)
  {
    ReachedFacts(origin, h'.trace, h'.world);
    HeldCall(h.world, h'.world, n, i);
    PollSees(h'.world, n, i, status);
  }

  // ---------------------------------------------------------------- the plugin call of an operation

  /** The state right after the plugin call of a lifecycle operation on i, quiet before it. */
  ghost predicate Called(h: History, h': History, n: Uuid, v: Verb, i: Uuid, answer: Result<Uuid>)
    requires i in h.world.records
  {
    && (answer.Err? ==> Held(h.world, h'.world, i))
    && (answer.Ok? ==>
          && i in h'.world.inflight && h'.world.inflight[i] == Await(n, TargetOf(v))
          && n in h'.world.nodes && i in h'.world.nodes[n].local
          && SameInstance(h.world.records[i], h'.world.nodes[n].local[i], TargetOf(v)))
    && (answer.Err? ==> answer.error != MalformedDescriptor && answer.error != COLLISION)
    && (WellFormedRun(h.trace) ==>
          && CallAnswer(h.world, v, i, answer)
          && (answer.Ok? ==> Produced(h.world.catalog, v, h.world.records[i], h'.world.nodes[n].local[i])))
  }

  predicate SameInstance(before: FDURecord, after: FDURecord, status: FDUState) {
    after.uuid == before.uuid && after.node == before.node && after.fduUuid == before.fduUuid && after.status == status
  }

  lemma CalledStep(origin: World, h: History, h': History, n: Uuid, v: Verb, op: PluginOp, i: Uuid,
                   answer: Result<Uuid>)
    requires Reached(origin, h.trace, h.world) && IsOp(v, op)
    requires Enabled(h.world, PluginCall(n, op, i)) && Serial(h.world, PluginCall(n, op, i))
    requires h'.world == Next(h.world, PluginCall(n, op, i))
    requires answer == Apply(h.world.nodes[n], h.world.catalog, op, i).1
    ensures Called(h, h', n, v, i, answer)
  {
    ReachedFacts(origin, h.trace, h.world);
    QuietRecord(h.world, i);
    NeverMalformed(h.world.nodes[n], h.world.catalog, op, i);
    if answer.Err? {
      RefusedHeld(h.world, n, op, i);
    } else {
      AnsweredStep(h.world, h'.world, n, v, op, i);
    }
    if WellFormedRun(h.trace) {
      ReachedConserved(origin, h.trace, h.world);
      LifecycleAnswer(h.world, n, v, op, i);
    }
  }

  /** Everything about the step of a plugin call. */
  lemma CallStep(origin: World, h: History, claimed: set<Uuid>, alone: bool, n: Uuid, v: Verb, op: PluginOp, i: Uuid)
    returns (h': History, answer: Result<Uuid>)
    requires Reached(origin, h.trace, h.world) && IsOp(v, op)
    requires Enabled(h.world, PluginCall(n, op, i)) && Serial(h.world, PluginCall(n, op, i))
    ensures h' == History(Next(h.world, PluginCall(n, op, i)), h.trace + [PluginCall(n, op, i)])
    ensures answer == Apply(h.world.nodes[n], h.world.catalog, op, i).1
    ensures Reached(origin, h'.trace, h'.world) && i in h'.world.issued
    ensures Steady(h, h', claimed, alone, {i}) && Calm(h, h')
    ensures Called(h, h', n, v, i, answer) && h'.world.held == h.world.held
  {
    var l := PluginCall(n, op, i);
    h' := History(Next(h.world, l), h.trace + [l]);
    answer := Apply(h.world.nodes[n], h.world.catalog, op, i).1;
    ReachedFacts(origin, h.trace, h.world);
    ReachedStep(origin, h, l);
    StepSteady(h, l, claimed, alone);
    StepCalm(h, l);
    CalledStep(origin, h, h', n, v, op, i, answer);
    ClaimedIssued(h.world, h'.world, i);
  }

  lemma ReachedStep(origin: World, h: History, l: Label)
    requires Reached(origin, h.trace, h.world) && Enabled(h.world, l) && Serial(h.world, l)
    ensures Reached(origin, h.trace + [l], Next(h.world, l))
  {
    ExecAppend(origin, h.trace, l);
  }

  lemma DefineStep(origin: World, h: History, claimed: set<Uuid>, alone: bool, n: Uuid, fdu: Uuid, u: Uuid)
    returns (h': History)
    requires Reached(origin, h.trace, h.world) && Enabled(h.world, DefineCall(n, fdu, u)) && claimed <= h.world.issued
    ensures h' == History(Next(h.world, DefineCall(n, fdu, u)), h.trace + [DefineCall(n, fdu, u)])
    ensures Reached(origin, h'.trace, h'.world) && u in h'.world.issued && claimed <= h'.world.issued
    ensures Steady(h, h', claimed, alone, {u}) && Calm(h, h')
    ensures h'.world.held == h.world.held - multiset{ToDefine(n, fdu)}
    ensures u in h'.world.inflight && h'.world.inflight[u] == Await(n, DEFINED)
    ensures n in h'.world.nodes && u in h'.world.nodes[n].local && h'.world.nodes[n].local[u] == NewInstance(n, fdu, u)
  {
    var l := DefineCall(n, fdu, u);
    h' := History(Next(h.world, l), h.trace + [l]);
    ReachedFacts(origin, h.trace, h.world);
    ReachedStep(origin, h, l);
    StepSteady(h, l, claimed, alone);
    StepCalm(h, l);
  }

  /** The record of an instance that was just defined. */
  function NewInstance(n: Uuid, fdu: Uuid, u: Uuid): FDURecord {
    FDURecord(u, fdu, n, [], [], DEFINED, None, 0)
  }

  /** What a define comes to that draws when these UUIDs are in use. */
  function DrawnInstance(random: Random, issued: set<Uuid>, n: Uuid, fdu: Uuid): Result<FDURecord> {
    var u := random.uuid(issued);
    if u in issued then Err(COLLISION) else Ok(NewInstance(n, fdu, u))
  }

  /** The instance that a define has made. */
  function Defined(r: Result<FDURecord>): set<Uuid> {
    if r.Ok? then {r.value.uuid} else {}
  }

  lemma NothingDefined(claimed: set<Uuid>, r: Result<FDURecord>)
    requires r.Err?
    ensures claimed + Defined(r) == claimed
  {
  }

  /** An instance with a global record was drawn before. */
  lemma ClaimedIssued(w: World, w': World, i: Uuid)
    requires Structure(w) && i in w.records && w.issued <= w'.issued
    ensures i in w'.issued
  {
    assert TidyRecord(w.records[i], i, w.records[i].node, w.issued);
  }

  lemma RecordIssued(origin: World, h: History, i: Uuid)
    requires Reached(origin, h.trace, h.world) && i in h.world.records
    ensures i in h.world.issued
  {
    ReachedFacts(origin, h.trace, h.world);
    ClaimedIssued(h.world, h.world, i);
  }

  lemma AnsweredStep(w: World, w': World, n: Uuid, v: Verb, op: PluginOp, i: Uuid)
    requires Callable(w, n, op, i) && IsOp(v, op)
    requires w' == Next(w, PluginCall(n, op, i)) && Apply(w.nodes[n], w.catalog, op, i).1.Ok?
    ensures i in w'.inflight && w'.inflight[i] == Await(n, TargetOf(v))
    ensures n in w'.nodes && i in w'.nodes[n].local && SameInstance(w.records[i], w'.nodes[n].local[i], TargetOf(v))
  {
    AnswerEffect(w, n, op, i);
    StepKeepsStructure(w, PluginCall(n, op, i));
    assert Tidy(w'.nodes[n], n, w'.issued) && TidyRecord(w'.nodes[n].local[i], i, n, w'.issued);
    QuietRecord(w, i);
  }

  lemma SteadyAgain(h: History, h1: History, h2: History, claimed: set<Uuid>, claimed1: set<Uuid>, alone: bool,
                    own: set<Uuid>)
    requires Steady(h, h1, claimed, alone, own) && Steady(h1, h2, claimed1, alone, own) && claimed <= claimed1
    ensures Steady(h, h2, claimed, alone, own)
  {
    SteadyTrans(h, h1, h2, claimed, claimed1, alone, own, own);
    SteadyWiden(h, h2, claimed, alone, own + own, own);
  }

  lemma WaitedThen(h: History, h1: History, h2: History, claimed: set<Uuid>, alone: bool, own: set<Uuid>)
    requires Waited(h, h1, claimed, alone) && Steady(h1, h2, claimed, alone, own)
    ensures Steady(h, h2, claimed, alone, own)
  {
    SteadyWiden(h, h1, claimed, alone, {}, own);
    SteadyAgain(h, h1, h2, claimed, claimed, alone, own);
  }

  /** The agent service that a node advertises is served by that node only. */
  lemma RoutedService(origin: World, h: History, n: Uuid)
    requires Reached(origin, h.trace, h.world) && n in h.world.nodes
    ensures n in h.world.infos
    ensures forall k | k in h.world.infos && h.world.infos[k].agentServiceUuid == h.world.infos[n].agentServiceUuid ::
        k == n
  {
    ReachedRouted(origin, h.trace, h.world);
  }

  lemma RoutedOwner(origin: World, h: History, i: Uuid)
    requires Reached(origin, h.trace, h.world) && i in h.world.records
    ensures var n := h.world.records[i].node;
      && n in h.world.nodes && n in h.world.infos
      && forall k | k in h.world.infos && h.world.infos[k].agentServiceUuid == h.world.infos[n].agentServiceUuid ::
           k == n
  {
    ReachedFacts(origin, h.trace, h.world);
    RoutedService(origin, h, h.world.records[i].node);
  }

  /** A state that the run went through between h and h'; when nobody else acts the catalogs there
      were those of h. */
  ghost predicate Moment(origin: World, h: History, m: History, h': History, alone: bool) {
    && Reached(origin, m.trace, m.world)
    && h.trace <= m.trace <= h'.trace && SameSetup(h.world, m.world) && (alone ==> Calm(h, m))
  }

  /** Such a state in which nothing about i had changed yet. */
  ghost predicate Within(origin: World, h: History, m: History, h': History, alone: bool, i: Uuid) {
    Moment(origin, h, m, h', alone) && Held(h.world, m.world, i)
  }

  /** When the agent read the descriptor and looked up its plugin, and when the plugin was called. */
  datatype Moments = Moments(read: History, called: History)

  /** The result of the plugin call of a lifecycle operation and its poll: on success the instance is
      at rest with exactly the record the plugin wrote; on an error nothing about it changed. With
      well-formed descriptors it fails exactly for the plugin's reason at the moment of the call, or
      because what the plugin drew was in use; and with any it answers a collision exactly then. */
  ghost predicate PluginResult(origin: World, random: Random, h: History, called: History, h': History, alone: bool,
                               v: Verb, i: Uuid, r: Result<FDURecord>)
    requires i in h.world.records
  {
    var rec := h.world.records[i];
    && Within(origin, h, called, h', alone, i)
    && (r.Ok? ==> AtRest(h'.world, i, r.value) && SameInstance(rec, r.value, TargetOf(v)))
    && (r.Err? ==> Held(h.world, h'.world, i) && r.error != MalformedDescriptor)
    && (WellFormedRun(h'.trace) && r.Ok? ==>
          PluginRefusal(called.world.catalog, v, rec) == None && Produced(called.world.catalog, v, rec, r.value))
    && (WellFormedRun(h'.trace) && r.Err? ==>
          PluginRefusal(called.world.catalog, v, rec) == Some(r.error) || Collided(random, called.world, v, rec))
    && (Collided(random, called.world, v, rec) <==> r == Err(COLLISION))
  }

  /** The result of a lifecycle operation on an instance that had no call in flight, on whatever node
      it was called: NotFound for an unknown instance, and for a descriptor or plugin that was missing
      when the agent read them; otherwise what the plugin makes of it. */
  ghost predicate Operated(origin: World, random: Random, h: History, m: Moments, h': History, alone: bool, v: Verb,
                           i: Uuid, r: Result<FDURecord>) {
    if i !in h.world.records then r == Err(NotFound) && Held(h.world, h'.world, i)
    else
      var rec := h.world.records[i];
      && Within(origin, h, m.read, h', alone, i)
      && if Hosted(m.read.world, rec.node, rec.fduUuid) then
           PluginResult(origin, random, h, m.called, h', alone, v, i, r)
         else r == Err(NotFound) && Held(h.world, h'.world, i)
  }

  lemma PluginAnswered(origin: World, random: Random, h: History, h1: History, h2: History, alone: bool, n: Uuid,
                       v: Verb, i: Uuid,
                       answer: Result<Uuid>, rec: FDURecord)
    requires Reached(origin, h.trace, h.world) && i in h.world.records && Called(h, h1, n, v, i, answer) && answer.Ok?
    requires rec == h1.world.nodes[n].local[i] && AtRest(h2.world, i, rec) && h.trace <= h2.trace
    requires !Collided(random, h.world, v, h.world.records[i])
    ensures PluginResult(origin, random, h, h, h2, alone, v, i, Ok(rec))
  {
    if WellFormedRun(h2.trace) { WellFormedBefore(h.trace, h2.trace); }
  }

  lemma PluginRefused(origin: World, random: Random, h: History, h1: History, alone: bool, n: Uuid, v: Verb, i: Uuid,
                      answer: Result<Uuid>)
    requires Reached(origin, h.trace, h.world) && i in h.world.records && Called(h, h1, n, v, i, answer) && answer.Err?
    requires h.trace <= h1.trace && !Collided(random, h.world, v, h.world.records[i])
    ensures PluginResult(origin, random, h, h, h1, alone, v, i, Err(answer.error))
  {
    if WellFormedRun(h1.trace) { WellFormedBefore(h.trace, h1.trace); }
  }

  /** A configure that the plugin refuses before it draws anything, or whose draws are in use. */
  lemma NotConfigured(origin: World, random: Random, h: History, alone: bool, i: Uuid)
    requires Reached(origin, h.trace, h.world) && i in h.world.records
    ensures var refusal := PluginRefusal(h.world.catalog, CONFIGURE, h.world.records[i]);
      refusal.Some? ==> PluginResult(origin, random, h, h, h, alone, CONFIGURE, i, Err(refusal.value))
    ensures Collided(random, h.world, CONFIGURE, h.world.records[i]) ==>
        PluginResult(origin, random, h, h, h, alone, CONFIGURE, i, Err(COLLISION))
  {
  }

  /** At rest, the plugin of the owner finds the record that the global store has. */
  lemma HomeRecord(origin: World, h: History, i: Uuid)
    requires Reached(origin, h.trace, h.world) && i in h.world.records && i !in h.world.inflight
    ensures var n := h.world.records[i].node;
      n in h.world.nodes && i in h.world.nodes[n].local && h.world.nodes[n].local[i] == h.world.records[i]
  {
    ReachedFacts(origin, h.trace, h.world);
    QuietRecord(h.world, i);
  }

  lemma WellFormedBefore(t: seq<Label>, t': seq<Label>)
    requires t <= t' && WellFormedRun(t')
    ensures WellFormedRun(t)
  {
    forall l | l in t ensures WellFormedLabel(l) {
      assert l in t';
    }
  }

  /** An instance at rest that is claimed has its record, and no call, after others have acted; and
      that is a moment of any call around it. */
  lemma RecordWaited(origin: World, h: History, h1: History, claimed: set<Uuid>, alone: bool, i: Uuid)
    requires Waited(h, h1, claimed, alone) && i in claimed && i in h.world.records && i !in h.world.inflight
    requires Reached(origin, h1.trace, h1.world)
    ensures i in h1.world.records && i !in h1.world.inflight && h1.world.records[i] == h.world.records[i]
    ensures h1.world.nodes.Keys == h.world.nodes.Keys && Within(origin, h, h1, h1, alone, i)
  {
    assert Held(h.world, h1.world, i);
  }

  lemma ReadWithin(origin: World, h: History, read: History, h': History, claimed: set<Uuid>, alone: bool, i: Uuid)
    requires Within(origin, h, read, read, alone, i) && read.trace <= h'.trace
    ensures Within(origin, h, read, h', alone, i)
  {
  }

  /** What was true of i at rest is still true after others acted. */
  lemma LaterMoment(origin: World, h: History, h1: History, m: History, h': History, claimed: set<Uuid>, alone: bool,
                    i: Uuid)
    requires Waited(h, h1, claimed, alone) && i in claimed && Within(origin, h1, m, h', alone, i)
    ensures Within(origin, h, m, h', alone, i)
  {
    HeldTrans(h.world, h1.world, m.world, i);
  }

  lemma LaterResult(origin: World, random: Random, h: History, h1: History, called: History, h': History,
                    claimed: set<Uuid>, alone: bool, v: Verb, i: Uuid, r: Result<FDURecord>)
    requires Waited(h, h1, claimed, alone) && i in claimed && i in h.world.records && i !in h.world.inflight
    ensures i in h1.world.records && i !in h1.world.inflight && h1.world.records[i] == h.world.records[i]
    ensures PluginResult(origin, random, h1, called, h', alone, v, i, r) ==>
        PluginResult(origin, random, h, called, h', alone, v, i, r)
  {
    assert Held(h.world, h1.world, i);
    if PluginResult(origin, random, h1, called, h', alone, v, i, r) {
      LaterMoment(origin, h, h1, called, h', claimed, alone, i);
      if r.Err? { HeldTrans(h.world, h1.world, h'.world, i); }
    }
  }

  /** A refusal because of what the agent read. */
  lemma OperateRefused(origin: World, random: Random, h: History, read: History, claimed: set<Uuid>, alone: bool,
                       v: Verb, i: Uuid)
    requires Waited(h, read, claimed, alone) && i in claimed && i in h.world.records && i !in h.world.inflight
    requires Reached(origin, read.trace, read.world)
    requires !Hosted(read.world, h.world.records[i].node, h.world.records[i].fduUuid)
    ensures Operated(origin, random, h, Moments(read, read), read, alone, v, i, Err(NotFound))
    ensures Steady(h, read, claimed, alone, {i})
  {
    RecordWaited(origin, h, read, claimed, alone, i);
    SteadyWiden(h, read, claimed, alone, {}, {i});
  }

  /** What the plugin made of it. */
  lemma OperateCalled(origin: World, random: Random, h: History, m: Moments, h': History, claimed: set<Uuid>,
                      alone: bool, v: Verb, i: Uuid, r: Result<FDURecord>)
    requires Waited(h, m.read, claimed, alone) && i in claimed && i in h.world.records && i !in h.world.inflight
    requires Reached(origin, m.read.trace, m.read.world) && Steady(m.read, h', claimed, alone, {i})
    requires Hosted(m.read.world, h.world.records[i].node, h.world.records[i].fduUuid)
    requires i in m.read.world.records && PluginResult(origin, random, m.read, m.called, h', alone, v, i, r)
    ensures Operated(origin, random, h, m, h', alone, v, i, r) && Steady(h, h', claimed, alone, {i})
  {
    RecordWaited(origin, h, m.read, claimed, alone, i);
    ReadWithin(origin, h, m.read, h', claimed, alone, i);
    LaterResult(origin, random, h, m.read, m.called, h', claimed, alone, v, i, r);
    WaitedThen(h, m.read, h', claimed, alone, {i});
  }

  lemma LaterOperated(origin: World, random: Random, h: History, h1: History, m: Moments, h': History,
                      claimed: set<Uuid>, alone: bool, v: Verb, i: Uuid, r: Result<FDURecord>)
    requires Waited(h, h1, claimed, alone) && i in claimed && i in h.world.records && i !in h.world.inflight
    requires Operated(origin, random, h1, m, h', alone, v, i, r)
    ensures Operated(origin, random, h, m, h', alone, v, i, r)
  {
    LaterResult(origin, random, h, h1, m.called, h', claimed, alone, v, i, r);
    LaterMoment(origin, h, h1, m.read, h', claimed, alone, i);
    if r.Err? && Held(h1.world, h'.world, i) { HeldTrans(h.world, h1.world, h'.world, i); }
  }

  function GetInstance(w: World, i: Uuid): Result<FDURecord> {
    if i in w.records then Ok(w.records[i]) else Err(NotFound)
  }

  // ---------------------------------------------------------------- undefine

  /** The result of an undefine on the instance's own node. */
  ghost predicate Undefined(origin: World, h: History, read: History, h': History, alone: bool, i: Uuid,
                            r: Result<FDURecord>) {
    if i !in h.world.records then r == Err(NotFound) && Held(h.world, h'.world, i)
    else
      var rec := h.world.records[i];
      && Within(origin, h, read, h', alone, i)
      && if Hosted(read.world, rec.node, rec.fduUuid) then UndefineResult(h, h', i, r)
         else r == Err(NotFound) && Held(h.world, h'.world, i)
  }

  /** A DEFINED instance is gone afterwards; any other is refused and unchanged. */
  ghost predicate UndefineResult(h: History, h': History, i: Uuid, r: Result<FDURecord>)
    requires i in h.world.records
  {
    if h.world.records[i].status == DEFINED then r == Ok(h.world.records[i]) && Gone(h'.world, i)
    else r == Err(TransitionNotAllowed) && Held(h.world, h'.world, i)
  }

  lemma LaterUndefine(h: History, h1: History, h': History, claimed: set<Uuid>, alone: bool, i: Uuid,
                      r: Result<FDURecord>)
    requires Waited(h, h1, claimed, alone) && i in claimed && i in h.world.records && i !in h.world.inflight
    requires i in h1.world.records && UndefineResult(h1, h', i, r)
    ensures UndefineResult(h, h', i, r)
  {
    assert Held(h.world, h1.world, i);
    if r.Err? { HeldTrans(h.world, h1.world, h'.world, i); }
  }

  lemma UndefineStep(origin: World, h: History, claimed: set<Uuid>, alone: bool, n: Uuid, i: Uuid)
    returns (h': History, answer: Result<Uuid>)
    requires Reached(origin, h.trace, h.world)
    requires Enabled(h.world, PluginCall(n, Undefine, i)) && Serial(h.world, PluginCall(n, Undefine, i))
    ensures h' == History(Next(h.world, PluginCall(n, Undefine, i)), h.trace + [PluginCall(n, Undefine, i)])
    ensures answer == Apply(h.world.nodes[n], h.world.catalog, Undefine, i).1
    ensures Reached(origin, h'.trace, h'.world) && i in h'.world.issued && h'.world.held == h.world.held
    ensures Steady(h, h', claimed, alone, {i}) && Calm(h, h')
    ensures UndefineCalled(h.world, h'.world, n, i, answer)
  {
    var l := PluginCall(n, Undefine, i);
    h' := History(Next(h.world, l), h.trace + [l]);
    answer := Apply(h.world.nodes[n], h.world.catalog, Undefine, i).1;
    ReachedFacts(origin, h.trace, h.world);
    ReachedStep(origin, h, l);
    StepSteady(h, l, claimed, alone);
    StepCalm(h, l);
    UndefineAnswered(h.world, h'.world, n, i);
    ClaimedIssued(h.world, h'.world, i);
  }

  /** The state right after the plugin call of an undefine. */
  ghost predicate UndefineCalled(w: World, w': World, n: Uuid, i: Uuid, answer: Result<Uuid>) {
    && i in w.records
    && answer == (if w.records[i].status == DEFINED then Ok(i) else Err(TransitionNotAllowed))
    && (answer.Err? ==> Held(w, w', i))
    && (answer.Ok? ==> i in w'.inflight && w'.inflight[i] == Removing(n))
  }

  lemma UndefineAnswered(w: World, w': World, n: Uuid, i: Uuid)
    requires Callable(w, n, Undefine, i) && w' == Next(w, PluginCall(n, Undefine, i))
    ensures UndefineCalled(w, w', n, i, Apply(w.nodes[n], w.catalog, Undefine, i).1)
  {
    UndefineAnswer(w, n, i);
    if Apply(w.nodes[n], w.catalog, Undefine, i).1.Err? { RefusedHeld(w, n, Undefine, i); }
  }

  /** Others do not take away the record that an undefine is about to remove. */
  lemma RemovingStays(origin: World, h: History, h': History, claimed: set<Uuid>, alone: bool, n: Uuid, i: Uuid)
    requires Reached(origin, h'.trace, h'.world) && Waited(h, h', claimed, alone) && i in claimed
    requires i in h.world.inflight && h.world.inflight[i] == Removing(n)
    ensures Enabled(h'.world, RemoveRecord(i))
  {
    ReachedFacts(origin, h'.trace, h'.world);
    assert Held(h.world, h'.world, i);
    assert InstanceOk(h'.world, i);
  }

  lemma RemoveStep(origin: World, h: History, claimed: set<Uuid>, alone: bool, i: Uuid) returns (h': History)
    requires Reached(origin, h.trace, h.world) && Enabled(h.world, RemoveRecord(i)) && claimed <= h.world.issued
    ensures h' == History(Next(h.world, RemoveRecord(i)), h.trace + [RemoveRecord(i)])
    ensures Reached(origin, h'.trace, h'.world) && Gone(h'.world, i) && claimed <= h'.world.issued
    ensures h'.world.held == h.world.held
    ensures Steady(h, h', claimed, alone, {i}) && Calm(h, h')
  {
    var l := RemoveRecord(i);
    h' := History(Next(h.world, l), h.trace + [l]);
    ReachedFacts(origin, h.trace, h.world);
    ReachedStep(origin, h, l);
    StepSteady(h, l, claimed, alone);
    StepCalm(h, l);
    RemovedIsGone(h.world, i);
  }

  // ---------------------------------------------------------------- catalogs and entity records

  lemma PublishStep(origin: World, h: History, claimed: set<Uuid>, alone: bool, rec: EntityRecord, l: Label)
    returns (h': History)
    requires Reached(origin, h.trace, h.world) && Enabled(h.world, l) && claimed <= h.world.issued
    requires l == Publish(rec) || l == Instantiate(rec)
    ensures h' == History(Next(h.world, l), h.trace + [l])
    ensures Reached(origin, h'.trace, h'.world) && claimed <= h'.world.issued
    ensures Steady(h, h', claimed, alone, {rec.uuid}) && Calm(h, h')
    ensures Shown(h.trace, h'.trace, rec.uuid, [rec.status])
  {
    h' := History(Next(h.world, l), h.trace + [l]);
    ReachedFacts(origin, h.trace, h.world);
    ReachedStep(origin, h, l);
    StepSteady(h, l, claimed, alone);
    StepCalm(h, l);
    StatusesAppend(h.trace, l, rec.uuid);
  }

  /** Others do not touch a claimed entity record. */
  lemma PublishableStays(h: History, h': History, claimed: set<Uuid>, alone: bool, rec: EntityRecord)
    requires Waited(h, h', claimed, alone) && rec.uuid in claimed
    requires rec.uuid in h.world.entityRecords && h.world.entityRecords[rec.uuid].id == rec.id
    ensures Enabled(h'.world, Publish(rec)) && Shown(h.trace, h'.trace, rec.uuid, [])
  {
    assert Held(h.world, h'.world, rec.uuid);
  }

  /** The reads and the write of one offload. */
  predicate OffloadOf(found: Read, listed: Read, l: Label) {
    || (l.Offload? && found == ToOffload(l.fdu) && listed == ToRemove(l.fdu))
    || (l.OffloadEntity? && found == ToOffloadEntity(l.e) && listed == ToRemoveEntity(l.e))
  }

  /** One catalog entry is gone, the catalogs are otherwise the same, and nothing ill-formed came in. */
  ghost predicate OnlyOffloaded(h: History, h': History, l: Label)
    requires l.Offload? || l.OffloadEntity?
  {
    && h'.world.catalog == (if l.Offload? then h.world.catalog - {l.fdu} else h.world.catalog)
    && h'.world.entities == (if l.OffloadEntity? then h.world.entities - {l.e} else h.world.entities)
    && (WellFormedRun(h.trace) ==> WellFormedRun(h'.trace))
  }

  /** One held read less for its holder and in all. */
  lemma KeptLess(kept: multiset<Read>, held: multiset<Read>, read: Read)
    requires kept <= held && read in kept
    ensures kept - multiset{read} <= held - multiset{read}
  {
  }

  lemma KeptReplaced(kept: multiset<Read>, held: multiset<Read>, found: Read, listed: Read)
    requires kept <= held && found in kept
    ensures kept - multiset{found} + multiset{listed} <= held - multiset{found} + multiset{listed}
  {
  }

  lemma KeptReplacedOnce(kept: multiset<Read>, found: Read, listed: Read)
    ensures kept - multiset{found} + multiset{listed} - multiset{listed} == kept - multiset{found}
  {
  }

  lemma KeptAgain(kept: multiset<Read>, read: Read)
    ensures kept + multiset{read} - multiset{read} == kept
  {
  }

  /** Opening or dropping a read changes nothing but the reads held. */
  lemma ReadStep(origin: World, h: History, claimed: set<Uuid>, alone: bool, l: Label) returns (h': History)
    requires Reached(origin, h.trace, h.world) && Enabled(h.world, l) && claimed <= h.world.issued
    requires l.Fetch? || l.Abandon?
    ensures h' == History(Next(h.world, l), h.trace + [l])
    ensures Reached(origin, h'.trace, h'.world) && claimed <= h'.world.issued
    ensures Steady(h, h', claimed, alone, {}) && Calm(h, h')
  {
    h' := History(Next(h.world, l), h.trace + [l]);
    ReachedFacts(origin, h.trace, h.world);
    ReachedStep(origin, h, l);
    StepSteady(h, l, claimed, alone);
    StepCalm(h, l);
  }

  predicate RemovalOf(listed: Read, l: Label) {
    (l.Offload? && listed == ToRemove(l.fdu)) || (l.OffloadEntity? && listed == ToRemoveEntity(l.e))
  }

  lemma OffloadStep(origin: World, h: History, claimed: set<Uuid>, alone: bool, listed: Read, l: Label)
    returns (h': History)
    requires Reached(origin, h.trace, h.world) && claimed <= h.world.issued && listed in h.world.held
    requires RemovalOf(listed, l)
    ensures h' == History(Next(h.world, l), h.trace + [l]) && h'.world.held == h.world.held - multiset{listed}
    ensures Reached(origin, h'.trace, h'.world) && claimed <= h'.world.issued
    ensures Steady(h, h', claimed, alone, {}) && OnlyOffloaded(h, h', l)
  {
    h' := CatalogStep(origin, h, claimed, alone, l);
    assert WellFormedLabel(l);
  }

  /** A listing, what others do before the removal, and the removal. */
  lemma OffloadSteps(h: History, begun: History, waited: History, h': History, claimed: set<Uuid>, alone: bool,
                     l: Label)
    requires Steady(h, begun, claimed, alone, {}) && Calm(h, begun) && Waited(begun, waited, claimed, alone)
    requires Steady(waited, h', claimed, alone, {}) && (l.Offload? || l.OffloadEntity?) && OnlyOffloaded(waited, h', l)
    ensures Steady(h, h', claimed, alone, {}) && (alone ==> OnlyOffloaded(h, h', l))
  {
    SteadyAgain(h, begun, waited, claimed, claimed, alone, {});
    SteadyAgain(h, waited, h', claimed, claimed, alone, {});
  }

  lemma InstantiateStep(origin: World, h: History, claimed: set<Uuid>, kept: multiset<Read>, alone: bool,
                        rec: EntityRecord)
    returns (h': History)
    requires Reached(origin, h.trace, h.world) && Enabled(h.world, Instantiate(rec)) && claimed <= h.world.issued
    requires kept <= h.world.held && ToInstantiate(rec.id) in kept
    ensures h' == History(Next(h.world, Instantiate(rec)), h.trace + [Instantiate(rec)])
    ensures h'.world == h.world.(entityRecords := h.world.entityRecords[rec.uuid := rec],
                                 held := h.world.held - multiset{ToInstantiate(rec.id)},
                                 issued := h.world.issued + {rec.uuid})
    ensures Reached(origin, h'.trace, h'.world) && claimed + {rec.uuid} <= h'.world.issued
    ensures kept - multiset{ToInstantiate(rec.id)} <= h'.world.held
    ensures Steady(h, h', claimed, alone, {rec.uuid}) && Calm(h, h')
    ensures Shown(h.trace, h'.trace, rec.uuid, [rec.status])
  {
    h' := PublishStep(origin, h, claimed, alone, rec, Instantiate(rec));
    KeptLess(kept, h.world.held, ToInstantiate(rec.id));
  }

  /** A listing that shows nothing takes the place of the read before it. */
  lemma ListStep(origin: World, h: History, claimed: set<Uuid>, alone: bool, found: Read, listed: Read)
    returns (h': History)
    requires Reached(origin, h.trace, h.world) && CanFetch(h.world, listed) && claimed <= h.world.issued
    requires ListingOf(found, listed)
    ensures h' == History(Next(h.world, Fetch(listed)), h.trace + [Fetch(listed)])
    ensures h'.world == h.world.(held := h.world.held - multiset{found} + multiset{listed})
    ensures Reached(origin, h'.trace, h'.world) && claimed <= h'.world.issued
    ensures Steady(h, h', claimed, alone, {}) && Calm(h, h')
  {
    h' := ReadStep(origin, h, claimed, alone, Fetch(listed));
  }

  predicate ListingOf(found: Read, listed: Read) {
    || (listed.ToRemove? && found == ToOffload(listed.fdu))
    || (listed.ToRemoveEntity? && found == ToOffloadEntity(listed.e))
  }

  lemma CatalogStep(origin: World, h: History, claimed: set<Uuid>, alone: bool, l: Label) returns (h': History)
    requires Reached(origin, h.trace, h.world) && Enabled(h.world, l) && claimed <= h.world.issued
    requires l.Onboard? || l.Offload? || l.OnboardEntity? || l.OffloadEntity?
    ensures h' == History(Next(h.world, l), h.trace + [l])
    ensures Reached(origin, h'.trace, h'.world) && claimed <= h'.world.issued
    ensures Steady(h, h', claimed, alone, {})
  {
    h' := History(Next(h.world, l), h.trace + [l]);
    ReachedFacts(origin, h.trace, h.world);
    ReachedStep(origin, h, l);
    StepSteady(h, l, claimed, alone);
  }

  /** The UUIDs that the descriptors have. */
  function Ids(fdus: seq<FDUDescriptor>): set<Uuid> {
    set k | 0 <= k < |fdus| && fdus[k].uuid.Some? :: fdus[k].uuid.value
  }

  /** How many of the descriptors have none. */
  function Nameless(fdus: seq<FDUDescriptor>): nat {
    if fdus == [] then 0 else Nameless(fdus[..|fdus| - 1]) + if fdus[|fdus| - 1].uuid.None? then 1 else 0
  }

  /** The UUID that something is stored under: its own, or a drawn one if that is not in use. */
  function Named(random: Random, issued: set<Uuid>, id: Option<Uuid>): Result<Uuid> {
    if id.Some? then Ok(id.value)
    else if random.uuid(issued) in issued then Err(COLLISION)
    else Ok(random.uuid(issued))
  }

  /** One of the next n draws may be of a UUID in use. */
  ghost predicate MayCollide(random: Random, issued: set<Uuid>, n: nat) {
    exists t: set<Uuid> :: issued <= t && |t| < |issued| + n && random.uuid(t) in t
  }

  lemma IdsAppend(fdus: seq<FDUDescriptor>, fdu: FDUDescriptor)
    requires fdu.uuid.Some?
    ensures Ids(fdus + [fdu]) == Ids(fdus) + {fdu.uuid.value}
  {
    var more := fdus + [fdu];
    assert forall k | 0 <= k < |fdus| :: more[k] == fdus[k];
    assert more[|fdus|] == fdu;
  }

  lemma {:induction false} NamelessPrefix(fdus: seq<FDUDescriptor>, k: nat)
    requires k <= |fdus|
    ensures Nameless(fdus[..k]) <= Nameless(fdus)
    ensures k < |fdus| ==>
        Nameless(fdus[..k + 1]) == Nameless(fdus[..k]) + if fdus[k].uuid.None? then 1 else 0
  {
    if k < |fdus| {
      assert fdus[..k + 1][..k] == fdus[..k];
      var shorter := fdus[..|fdus| - 1];
      NamelessPrefix(shorter, k);
      assert shorter[..k] == fdus[..k];
    } else {
      assert fdus[..k] == fdus;
    }
  }

  /** A stored FDU descriptor: the given one, with a drawn UUID if it had none. */
  ghost predicate FduFilled(issued: set<Uuid>, given: FDUDescriptor, stored: FDUDescriptor) {
    && stored.uuid.Some? && stored == given.(uuid := stored.uuid)
    && (given.uuid.Some? ==> stored == given)
    && (given.uuid.None? ==> stored.uuid.value !in issued)
  }

  /** The given FDUs in order, each with a UUID; two share a UUID only if they were given it. */
  ghost predicate FdusFilled(issued: set<Uuid>, given: seq<FDUDescriptor>, stored: seq<FDUDescriptor>) {
    && |stored| == |given|
    && (forall k | 0 <= k < |given| :: FduFilled(issued, given[k], stored[k]))
    && (forall j, k | 0 <= j < k < |given| && stored[j].uuid == stored[k].uuid ::
          given[j].uuid == stored[j].uuid == given[k].uuid)
  }

  /** The first of the given FDUs, filled in; nothing drawn is the UUID of a given one. */
  ghost predicate FilledSoFar(issued: set<Uuid>, given: seq<FDUDescriptor>, stored: seq<FDUDescriptor>) {
    && |stored| <= |given|
    && (forall k | 0 <= k < |stored| :: FduFilled(issued, given[k], stored[k]))
    && (forall k | 0 <= k < |stored| && given[k].uuid.None? :: stored[k].uuid.value !in Ids(given))
    && (forall j, k | 0 <= j < k < |stored| && stored[j].uuid == stored[k].uuid ::
          given[j].uuid == stored[j].uuid == given[k].uuid)
  }

  lemma FilledNext(issued: set<Uuid>, given: seq<FDUDescriptor>, stored: seq<FDUDescriptor>, used: set<Uuid>, u: Uuid)
    requires FilledSoFar(issued, given, stored) && |stored| < |given| && used == issued + Ids(given) + Ids(stored)
    requires given[|stored|].uuid == Some(u) || (given[|stored|].uuid == None && u !in used)
    ensures var more := stored + [given[|stored|].(uuid := Some(u))];
      FilledSoFar(issued, given, more) && used + {u} == issued + Ids(given) + Ids(more)
  {
    var k := |stored|;
    var fdu := given[k].(uuid := Some(u));
    var more := stored + [fdu];
    IdsAppend(stored, fdu);
    assert FduFilled(issued, given[k], fdu);
    assert forall j | 0 <= j < k :: more[j] == stored[j];
    forall j | 0 <= j < k && stored[j].uuid == Some(u) ensures given[j].uuid == Some(u) == given[k].uuid {
      assert u in Ids(stored);
    }
  }

  lemma UsedNext(base: set<Uuid>, given: seq<FDUDescriptor>, k: nat, used: set<Uuid>, u: Uuid)
    requires k < |given| && |used| <= |base| + Nameless(given[..k]) && Ids(given) <= used
    requires given[k].uuid == Some(u) || given[k].uuid == None
    ensures |used + {u}| <= |base| + Nameless(given[..k + 1])
  {
    NamelessPrefix(given, k);
    if given[k].uuid.Some? {
      assert u in Ids(given);
      assert used + {u} == used;
    }
  }

  lemma AllFilledIn(issued: set<Uuid>, given: seq<FDUDescriptor>, stored: seq<FDUDescriptor>, used: set<Uuid>)
    requires FilledSoFar(issued, given, stored) && |stored| == |given| && used == issued + Ids(given) + Ids(stored)
    requires |used| <= |issued + Ids(given)| + Nameless(given[..|given|])
    ensures FdusFilled(issued, given, stored) && Ids(given) <= Ids(stored)
    ensures |issued + Ids(stored)| <= |issued + Ids(given)| + Nameless(given)
  {
    assert given[..|given|] == given;
    forall u | u in Ids(given) ensures u in Ids(stored) {
      var k :| 0 <= k < |given| && given[k].uuid == Some(u);
      assert stored[k].uuid == Some(u);
    }
    assert issued + Ids(stored) == used;
  }

  lemma DrawCollides(random: Random, issued: set<Uuid>, given: seq<FDUDescriptor>, k: nat, used: set<Uuid>)
    requires k < |given| && given[k].uuid.None? && issued <= used && |used| <= |issued| + Nameless(given[..k])
    requires random.uuid(used) in used
    ensures MayCollide(random, issued, Nameless(given))
  {
    NamelessPrefix(given, k);
    NamelessPrefix(given, k + 1);
  }

  lemma LastDrawCollides(random: Random, issued: set<Uuid>, given: seq<FDUDescriptor>, stored: seq<FDUDescriptor>)
    requires Ids(given) <= Ids(stored) && |issued + Ids(stored)| <= |issued + Ids(given)| + Nameless(given)
    requires random.uuid(issued + Ids(stored)) in issued + Ids(stored)
    ensures MayCollide(random, issued + Ids(given), Nameless(given) + 1)
  {
  }

  ghost predicate FilledFrom(issued: set<Uuid>, given: EntityDescriptor, stored: EntityDescriptor, e: Uuid) {
    stored == given.(uuid := Some(e), fdus := stored.fdus) && FdusFilled(issued, given.fdus, stored.fdus)
  }

  // ---------------------------------------------------------------- scheduling

  /** check_fdu_compatibility on node n; the panics of its unwrap and index calls are errors. */
  function CheckFdu(w: World, n: Uuid, fdu: Uuid): Result<bool> {
    if fdu !in w.catalog || n !in w.infos || n !in w.statuses then Err(NotFound)
    else if !Inspectable(w.infos[n], w.statuses[n]) then Err(UnknownError("panic"))
    else Ok(Compatible(w.catalog[fdu], w.infos[n], w.statuses[n], HypervisorsOf(w, n),
                       ImageFound(w, n, w.catalog[fdu].imageUri)))
  }

  function HypervisorsOf(w: World, n: Uuid): set<string> {
    if n in w.plugins then w.plugins[n] else {}
  }

  predicate ImageFound(w: World, n: Uuid, uri: Option<string>) {
    uri.Some? && |uri.value| >= 7 && n in w.files && uri.value[7..] in w.files[n]
  }

  /** What the check of a node reads is there. */
  predicate Checkable(w: World, n: Uuid, fdu: Uuid) {
    fdu in w.catalog && n in w.infos && n in w.statuses && Inspectable(w.infos[n], w.statuses[n])
  }

  /** The image file at this path is missing on the node. */
  predicate Missing(w: World, n: Uuid, path: string) {
    n !in w.files || path !in w.files[n]
  }

  /** The node falls short of this requirement of a catalogued descriptor. */
  ghost predicate ShortOn(w: World, n: Uuid, fdu: Uuid, q: Requirement)
    requires Checkable(w, n, fdu)
  {
    match q
    case HYPERVISOR => !Hosted(w, n, fdu)
    case IMAGE => exists path :: w.catalog[fdu].imageUri == Some("file://" + path) && Missing(w, n, path)
    case _ => Short(w.catalog[fdu], w.infos[n], w.statuses[n], {}, true, q)
  }

  /** A node that can be checked answers Ok(true) exactly when it falls short of nothing, and Ok(false)
      otherwise; one that cannot answers NotFound, or panics. */
  lemma CheckFduIff(w: World, n: Uuid, fdu: Uuid)
    ensures CheckFdu(w, n, fdu) == Ok(true) <==> Checkable(w, n, fdu) && forall q :: !ShortOn(w, n, fdu, q)
    ensures CheckFdu(w, n, fdu).Ok? <==> Checkable(w, n, fdu)
    ensures CheckFdu(w, n, fdu) == Err(NotFound) <==> fdu !in w.catalog || n !in w.infos || n !in w.statuses
  {
    if Checkable(w, n, fdu) {
      var desc, found := w.catalog[fdu], ImageFound(w, n, w.catalog[fdu].imageUri);
      CompatibleIff(desc, w.infos[n], w.statuses[n], HypervisorsOf(w, n), found);
      forall q ensures ShortOn(w, n, fdu, q) <==> Short(desc, w.infos[n], w.statuses[n], HypervisorsOf(w, n), found, q)
      {
        if q == IMAGE { ImageShort(w, n, fdu); }
      }
    }
  }

  lemma ImageShort(w: World, n: Uuid, fdu: Uuid)
    requires Checkable(w, n, fdu)
    ensures ShortOn(w, n, fdu, IMAGE)
       <==> Short(w.catalog[fdu], w.infos[n], w.statuses[n], HypervisorsOf(w, n),
                  ImageFound(w, n, w.catalog[fdu].imageUri), IMAGE)
  {
    var uri := w.catalog[fdu].imageUri;
    if uri.Some? && "file://" <= uri.value {
      assert uri.value == "file://" + uri.value[7..];
      forall path | uri == Some("file://" + path) ensures path == uri.value[7..] {
        assert ("file://" + path)[7..] == path;
      }
    }
  }

  /** A node that accepts a descriptor goes on accepting it with any one size changed up to exactly what
      the node has. */
  lemma CheckThresholds(w: World, n: Uuid, fdu: Uuid, size: nat)
    requires CheckFdu(w, n, fdu) == Ok(true)
    ensures CheckFdu(Resized(w, fdu, PROCESSORS, size), n, fdu) == Ok(size <= |w.infos[n].cpu| % 256)
    ensures CheckFdu(Resized(w, fdu, FREQUENCY, size), n, fdu) == Ok(size <= w.infos[n].cpu[0].frequency)
    ensures CheckFdu(Resized(w, fdu, RAM, size), n, fdu) == Ok(size as real <= w.statuses[n].ramFree)
    ensures CheckFdu(Resized(w, fdu, STORAGE, size), n, fdu)
         == Ok(size as real / 1024.0 <= RootDisk(w.statuses[n].disk).value.free)
  {
    Thresholds(w.catalog[fdu], w.infos[n], w.statuses[n], HypervisorsOf(w, n),
               ImageFound(w, n, w.catalog[fdu].imageUri), size);
    CheckResized(w, n, fdu, PROCESSORS, size);
    CheckResized(w, n, fdu, FREQUENCY, size);
    CheckResized(w, n, fdu, RAM, size);
    CheckResized(w, n, fdu, STORAGE, size);
  }

  lemma CheckResized(w: World, n: Uuid, fdu: Uuid, q: Requirement, size: nat)
    requires Checkable(w, n, fdu)
    ensures CheckFdu(Resized(w, fdu, q, size), n, fdu)
         == Ok(Compatible(Needing(w.catalog[fdu], q, size), w.infos[n], w.statuses[n], HypervisorsOf(w, n),
                          ImageFound(w, n, w.catalog[fdu].imageUri)))
  {
  }

  function Resized(w: World, fdu: Uuid, q: Requirement, size: nat): World
    requires fdu in w.catalog
  {
    w.(catalog := w.catalog[fdu := Needing(w.catalog[fdu], q, size)])
  }

  /** Each node of moments was asked in the state given there. */
  ghost function Checks(moments: map<Uuid, History>, fdu: Uuid): Uuid -> Result<bool> {
    n => if n in moments then CheckFdu(moments[n].world, n, fdu) else Err(ZConnectorError)
  }

  /** What the agent service s answers, when node n answers check(n). */
  ghost function Verdict(infos: map<Uuid, NodeInfo>, check: Uuid -> Result<bool>, s: Uuid): Result<bool> {
    if exists n :: n in infos && infos[n].agentServiceUuid == s then
      var n :| n in infos && infos[n].agentServiceUuid == s;
      check(n)
    else Err(ZConnectorError)
  }

  ghost function Verdicts(infos: map<Uuid, NodeInfo>, check: Uuid -> Result<bool>): Uuid -> Result<bool> {
    s => Verdict(infos, check, s)
  }

  /** No two nodes advertise the same service. */
  ghost predicate OwnServices(infos: map<Uuid, NodeInfo>) {
    forall n, m | n in infos && m in infos && infos[n].agentServiceUuid == infos[m].agentServiceUuid :: n == m
  }

  lemma VerdictOf(infos: map<Uuid, NodeInfo>, check: Uuid -> Result<bool>, n: Uuid)
    requires OwnServices(infos) && n in infos
    ensures Verdict(infos, check, infos[n].agentServiceUuid) == check(n)
  {
  }

  /** A node that accepts can host: an agent there can define the FDU at once. */
  lemma AcceptedIsHosted(w: World, n: Uuid, fdu: Uuid)
    requires CheckFdu(w, n, fdu) == Ok(true)
    ensures Hosted(w, n, fdu)
  {
  }

  /** When nobody else acts it can still be defined later. */
  lemma AcceptedStaysHosted(h: History, m: History, h1: History, n: Uuid, fdu: Uuid)
    requires CheckFdu(m.world, n, fdu) == Ok(true)
    requires SameSetup(h.world, m.world) && Calm(h, m) && SameSetup(h.world, h1.world) && Calm(h, h1)
    ensures Hosted(h1.world, n, fdu)
  {
    AcceptedIsHosted(m.world, n, fdu);
  }

  /** Every moment lies between h and h'. */
  ghost predicate AskedAt(origin: World, h: History, moments: map<Uuid, History>, h': History, alone: bool) {
    forall n | n in moments :: Moment(origin, h, moments[n], h', alone)
  }

  lemma AskedEarlier(origin: World, h: History, moments: map<Uuid, History>, h1: History, h': History, alone: bool)
    requires AskedAt(origin, h, moments, h1, alone) && h1.trace <= h'.trace
    ensures AskedAt(origin, h, moments, h', alone)
  {
    forall n | n in moments ensures Moment(origin, h, moments[n], h', alone) {
      assert Moment(origin, h, moments[n], h1, alone);
    }
  }

  /** Each client is the service of a node, and no two are the same. */
  ghost predicate ServedOnce(infos: map<Uuid, NodeInfo>, clients: seq<Uuid>) {
    NoDup(clients) && forall k | 0 <= k < |clients| :: exists n :: n in infos && infos[n].agentServiceUuid == clients[k]
  }

  lemma {:induction false} AcceptingSame(services: seq<Uuid>, v: Uuid -> Result<bool>, v': Uuid -> Result<bool>)
    requires forall s | s in services :: v(s) == v'(s)
    ensures Accepting(services, v) == Accepting(services, v')
  {
    if services != [] {
      assert services == [services[0]] + services[1..];
      AcceptingSame(services[1..], v, v');
    }
  }

  lemma OtherVerdict(infos: map<Uuid, NodeInfo>, check: Uuid -> Result<bool>, check': Uuid -> Result<bool>,
                     clients: seq<Uuid>, j: nat, k: nat, n: Uuid)
    requires OwnServices(infos) && ServedOnce(infos, clients) && j < k < |clients|
    requires n in infos && infos[n].agentServiceUuid == clients[k] && forall p | p != n :: check'(p) == check(p)
    ensures Verdict(infos, check', clients[j]) == Verdict(infos, check, clients[j])
  {
    var p :| p in infos && infos[p].agentServiceUuid == clients[j];
    VerdictOf(infos, check, p);
    VerdictOf(infos, check', p);
  }

  /** Asking one more node changes no earlier answer. */
  lemma OneMoreVerdict(infos: map<Uuid, NodeInfo>, moments: map<Uuid, History>, clients: seq<Uuid>, k: nat, n: Uuid,
                       m: History, fdu: Uuid)
    requires OwnServices(infos) && ServedOnce(infos, clients) && k < |clients|
    requires n in infos && infos[n].agentServiceUuid == clients[k]
    ensures Verdict(infos, Checks(moments[n := m], fdu), clients[k]) == CheckFdu(m.world, n, fdu)
    ensures Accepting(clients[..k], Verdicts(infos, Checks(moments[n := m], fdu)))
         == Accepting(clients[..k], Verdicts(infos, Checks(moments, fdu)))
  {
    var check, check' := Checks(moments, fdu), Checks(moments[n := m], fdu);
    VerdictOf(infos, check', n);
    forall s | s in clients[..k] ensures Verdict(infos, check', s) == Verdict(infos, check, s) {
      var j :| 0 <= j < k && clients[j] == s;
      OtherVerdict(infos, check, check', clients, j, k, n);
    }
    AcceptingSame(clients[..k], Verdicts(infos, check'), Verdicts(infos, check));
  }

  /** One more node has been asked, at h2. */
  lemma AskedNext(origin: World, h: History, h1: History, h2: History, claimed: set<Uuid>, alone: bool,
                  moments: map<Uuid, History>, n: Uuid)
    requires AskedAt(origin, h, moments, h1, alone) && Waited(h, h1, claimed, alone) && Waited(h1, h2, claimed, alone)
    requires Reached(origin, h2.trace, h2.world)
    ensures Waited(h, h2, claimed, alone) && AskedAt(origin, h, moments[n := h2], h2, alone)
  {
    WaitedTrans(h, h1, h2, claimed, alone);
    AskedMore(origin, h, h1, h2, alone, moments, n);
  }

  lemma AskedMore(origin: World, h: History, h1: History, h2: History, alone: bool,
                  moments: map<Uuid, History>, n: Uuid)
    requires AskedAt(origin, h, moments, h1, alone) && h1.trace <= h2.trace && Moment(origin, h, h2, h2, alone)
    ensures AskedAt(origin, h, moments[n := h2], h2, alone)
  {
    AskedEarlier(origin, h, moments, h1, h2, alone);
  }

  lemma AskedNodes(infos: map<Uuid, NodeInfo>, moments: map<Uuid, History>, clients: seq<Uuid>, k: nat, n: Uuid,
                   m: History)
    requires OwnServices(infos) && k < |clients| && n in infos && infos[n].agentServiceUuid == clients[k]
    requires forall p :: p in moments <==> p in infos && infos[p].agentServiceUuid in clients[..k]
    ensures forall p :: p in moments[n := m] <==> p in infos && infos[p].agentServiceUuid in clients[..k + 1]
  {
    var more := clients[..k + 1];
    assert more == clients[..k] + [clients[k]];
  }

  lemma AcceptedMore(infos: map<Uuid, NodeInfo>, moments: map<Uuid, History>, clients: seq<Uuid>, k: nat, n: Uuid,
                     m: History, fdu: Uuid)
    requires OwnServices(infos) && ServedOnce(infos, clients) && k < |clients|
    requires n in infos && infos[n].agentServiceUuid == clients[k]
    ensures Accepting(clients[..k + 1], Verdicts(infos, Checks(moments[n := m], fdu)))
         == Accepting(clients[..k], Verdicts(infos, Checks(moments, fdu)))
              + if CheckFdu(m.world, n, fdu) == Ok(true) then [clients[k]] else []
  {
    var more := clients[..k + 1];
    assert more == clients[..k] + [clients[k]];
    OneMoreVerdict(infos, moments, clients, k, n, m, fdu);
    AcceptingAppend(clients[..k], clients[k], Verdicts(infos, Checks(moments[n := m], fdu)));
  }

  /** Exactly the nodes that serve these clients were asked, and the accepting ones are listed in order. */
  ghost predicate ClientsAnswered(infos: map<Uuid, NodeInfo>, clients: seq<Uuid>, fdu: Uuid,
                                  moments: map<Uuid, History>, accepting: seq<Uuid>) {
    && (forall n :: n in moments <==> n in infos && infos[n].agentServiceUuid in clients)
    && accepting == Accepting(clients, Verdicts(infos, Checks(moments, fdu)))
  }

  lemma NobodyAsked(origin: World, h: History, alone: bool, infos: map<Uuid, NodeInfo>, clients: seq<Uuid>, fdu: Uuid)
    ensures AskedAt(origin, h, map[], h, alone) && ClientsAnswered(infos, clients[..0], fdu, map[], [])
  {
  }

  lemma EverybodyAsked(infos: map<Uuid, NodeInfo>, clients: seq<Uuid>, fdu: Uuid, moments: map<Uuid, History>,
                       accepting: seq<Uuid>)
    requires ClientsAnswered(infos, clients[..|clients|], fdu, moments, accepting)
    ensures ClientsAnswered(infos, clients, fdu, moments, accepting)
  {
    assert clients[..|clients|] == clients;
  }

  lemma ClientAnswered(infos: map<Uuid, NodeInfo>, clients: seq<Uuid>, k: nat, fdu: Uuid, moments: map<Uuid, History>,
                       accepting: seq<Uuid>, n: Uuid, m: History)
    requires OwnServices(infos) && ServedOnce(infos, clients) && k < |clients|
    requires n in infos && infos[n].agentServiceUuid == clients[k]
    requires ClientsAnswered(infos, clients[..k], fdu, moments, accepting)
    ensures var more := accepting + if CheckFdu(m.world, n, fdu) == Ok(true) then [clients[k]] else [];
      ClientsAnswered(infos, clients[..k + 1], fdu, moments[n := m], more)
  {
    AskedNodes(infos, moments, clients, k, n, m);
    AcceptedMore(infos, moments, clients, k, n, m, fdu);
  }

  /** nodes lists every advertised node exactly once. */
  ghost predicate Advertised(infos: map<Uuid, NodeInfo>, nodes: seq<NodeInfo>) {
    && (forall k | 0 <= k < |nodes| :: nodes[k].uuid in infos && infos[nodes[k].uuid] == nodes[k])
    && (forall j, k | 0 <= j < k < |nodes| :: nodes[j].uuid != nodes[k].uuid)
    && (forall n | n in infos :: exists k :: 0 <= k < |nodes| && nodes[k] == infos[n])
  }

  lemma {:induction false} ServicesCount(nodes: seq<NodeInfo>, s: Uuid)
    requires forall j, k | 0 <= j < k < |nodes| :: nodes[j].agentServiceUuid != nodes[k].agentServiceUuid
    ensures multiset(Services(nodes))[s]
      == if exists k :: 0 <= k < |nodes| && nodes[k].agentServiceUuid == s then 1 else 0
  {
    if nodes != [] {
      ServicesCount(nodes[1..], s);
      assert multiset(Services(nodes)) == multiset{nodes[0].agentServiceUuid} + multiset(Services(nodes[1..]));
      if k :| 0 <= k < |nodes| && nodes[k].agentServiceUuid == s {
        if k > 0 { assert nodes[1..][k - 1].agentServiceUuid == s; }
      }
    }
  }

  /** With routed infos the caller's service is advertised exactly once, so each advertised
      node's service is asked exactly once. */
  lemma AllAskedOnce(w: World, at: Uuid, nodes: seq<NodeInfo>)
    requires Routed(w) && at in w.infos && Advertised(w.infos, nodes)
    ensures multiset(RemoteServices(nodes, w.infos[at].agentServiceUuid) + [w.infos[at].agentServiceUuid])
      == multiset(Services(nodes))
  {
    forall j, k | 0 <= j < k < |nodes| ensures nodes[j].agentServiceUuid != nodes[k].agentServiceUuid {
      assert nodes[j].uuid in w.infos && nodes[k].uuid in w.infos;
    }
    ServicesCount(nodes, w.infos[at].agentServiceUuid);
    EachNodeAskedOnce(nodes, w.infos[at].agentServiceUuid);
  }

  /** The clients of node at are the services of the other nodes. */
  lemma ClientsServed(w: World, at: Uuid, nodes: seq<NodeInfo>)
    requires Routed(w) && at in w.infos && Advertised(w.infos, nodes)
    ensures var clients := RemoteServices(nodes, w.infos[at].agentServiceUuid);
      && ServedOnce(w.infos, clients)
      && forall n | n in w.infos :: w.infos[n].agentServiceUuid in clients <==> n != at
  {
    ClientsOfOthers(w, at, nodes);
    ClientsOfNodes(w, at, nodes);
    ServicesDiffer(w, nodes);
    RemoteServicesDiffer(nodes, w.infos[at].agentServiceUuid);
  }

  lemma ClientsOfOthers(w: World, at: Uuid, nodes: seq<NodeInfo>)
    requires Routed(w) && at in w.infos && Advertised(w.infos, nodes)
    ensures forall n | n in w.infos ::
        w.infos[n].agentServiceUuid in RemoteServices(nodes, w.infos[at].agentServiceUuid) <==> n != at
  {
    var clients := RemoteServices(nodes, w.infos[at].agentServiceUuid);
    RemoteServicesAre(nodes, w.infos[at].agentServiceUuid);
    forall n | n in w.infos ensures w.infos[n].agentServiceUuid in clients <==> n != at {
      var k :| 0 <= k < |nodes| && nodes[k] == w.infos[n];
    }
  }

  lemma ClientsOfNodes(w: World, at: Uuid, nodes: seq<NodeInfo>)
    requires Routed(w) && at in w.infos && Advertised(w.infos, nodes)
    ensures var clients := RemoteServices(nodes, w.infos[at].agentServiceUuid);
      forall j | 0 <= j < |clients| :: exists n :: n in w.infos && w.infos[n].agentServiceUuid == clients[j]
  {
    var clients := RemoteServices(nodes, w.infos[at].agentServiceUuid);
    RemoteServicesAre(nodes, w.infos[at].agentServiceUuid);
    forall j | 0 <= j < |clients| ensures exists n :: n in w.infos && w.infos[n].agentServiceUuid == clients[j] {
      assert clients[j] in clients;
      var k :| 0 <= k < |nodes| && nodes[k].agentServiceUuid == clients[j];
      assert nodes[k].uuid in w.infos;
    }
  }

  lemma ServicesDiffer(w: World, nodes: seq<NodeInfo>)
    requires Routed(w) && Advertised(w.infos, nodes)
    ensures forall j, k | 0 <= j < k < |nodes| :: nodes[j].agentServiceUuid != nodes[k].agentServiceUuid
  {
    forall j, k | 0 <= j < k < |nodes| ensures nodes[j].agentServiceUuid != nodes[k].agentServiceUuid {
      assert nodes[j].uuid in w.infos && nodes[k].uuid in w.infos;
    }
  }

  lemma {:induction false} RemoteServicesDiffer(nodes: seq<NodeInfo>, mine: Uuid)
    requires forall j, k | 0 <= j < k < |nodes| :: nodes[j].agentServiceUuid != nodes[k].agentServiceUuid
    ensures NoDup(RemoteServices(nodes, mine))
  {
    if nodes != [] {
      var rest := RemoteServices(nodes[1..], mine);
      RemoteServicesDiffer(nodes[1..], mine);
      RemoteServicesAre(nodes[1..], mine);
      forall j | 0 <= j < |rest| ensures rest[j] != nodes[0].agentServiceUuid {
        assert rest[j] in rest;
        var k :| 0 <= k < |nodes[1..]| && nodes[1..][k].agentServiceUuid == rest[j];
        assert nodes[k + 1].agentServiceUuid == rest[j];
      }
    }
  }

  /** The candidates of node at: itself by its node UUID, the others by their services. */
  ghost function CandidatesAt(w: World, at: Uuid, check: Uuid -> Result<bool>, nodes: seq<NodeInfo>): seq<Uuid>
    requires at in w.infos
  {
    Candidates(nodes, w.infos[at].agentServiceUuid, Verdicts(w.infos, check), at, check(at))
  }

  /** There is no candidate exactly when no node accepts. */
  lemma NoneAcceptsIff(w: World, at: Uuid, check: Uuid -> Result<bool>, nodes: seq<NodeInfo>)
    requires Routed(w) && at in w.infos && Advertised(w.infos, nodes)
    ensures CandidatesAt(w, at, check, nodes) == [] <==> forall n | n in w.nodes :: check(n) != Ok(true)
  {
    var mine := w.infos[at].agentServiceUuid;
    NoCandidateIff(nodes, mine, Verdicts(w.infos, check), at, check(at));
    VerdictsAre(w, check, nodes);
    AllNodesAsked(w, at, nodes, Verdicts(w.infos, check), check);
  }

  /** Asking every advertised node's service but the caller's, and the caller itself, asks all. */
  lemma AllNodesAsked(w: World, at: Uuid, nodes: seq<NodeInfo>, verdict: Uuid -> Result<bool>,
                      check: Uuid -> Result<bool>)
    requires Routed(w) && at in w.infos && Advertised(w.infos, nodes)
    requires forall k | 0 <= k < |nodes| :: verdict(nodes[k].agentServiceUuid) == check(nodes[k].uuid)
    ensures (forall n | n in w.nodes :: check(n) != Ok(true)) <==>
      && check(at) != Ok(true)
      && forall k | 0 <= k < |nodes| && nodes[k].agentServiceUuid != w.infos[at].agentServiceUuid ::
           verdict(nodes[k].agentServiceUuid) != Ok(true)
  {
    forall n | n in w.nodes ensures exists k :: 0 <= k < |nodes| && nodes[k] == w.infos[n] {
      assert n in w.infos;
    }
    forall k | 0 <= k < |nodes| ensures nodes[k].uuid in w.nodes {
      assert nodes[k].uuid in w.infos;
    }
  }

  lemma VerdictsAre(w: World, check: Uuid -> Result<bool>, nodes: seq<NodeInfo>)
    requires Routed(w) && Advertised(w.infos, nodes)
    ensures forall k | 0 <= k < |nodes| ::
              nodes[k].uuid in w.infos && Verdict(w.infos, check, nodes[k].agentServiceUuid) == check(nodes[k].uuid)
  {
    forall k | 0 <= k < |nodes|
      ensures nodes[k].uuid in w.infos && Verdict(w.infos, check, nodes[k].agentServiceUuid) == check(nodes[k].uuid)
    {
      VerdictOf(w.infos, check, nodes[k].uuid);
    }
  }

  /** n is the one node whose agent has this service UUID. */
  ghost predicate ServedBy(w: World, service: Uuid, n: Uuid) {
    n in w.infos && w.infos[n].agentServiceUuid == service
      && forall k | k in w.infos && w.infos[k].agentServiceUuid == service :: k == n
  }

  /** The candidate is the caller's own node UUID, or the service of exactly one node. */
  ghost predicate StandsFor(w: World, at: Uuid, c: Uuid, n: Uuid) {
    if c == at then n == at else ServedBy(w, c, n)
  }

  ghost predicate StandsForAccepting(w: World, at: Uuid, check: Uuid -> Result<bool>, c: Uuid) {
    exists n :: n in w.nodes && check(n) == Ok(true) && StandsFor(w, at, c, n)
  }

  /** Every node was asked, and this one answered Ok(true). */
  ghost predicate Accepted(w: World, moments: map<Uuid, History>, fdu: Uuid, n: Uuid) {
    moments.Keys == w.nodes.Keys && n in w.nodes && CheckFdu(moments[n].world, n, fdu) == Ok(true)
  }

  /** Every node was asked, and none answered Ok(true). */
  ghost predicate NoneAccepted(w: World, moments: map<Uuid, History>, fdu: Uuid) {
    moments.Keys == w.nodes.Keys && forall n | n in w.nodes :: CheckFdu(moments[n].world, n, fdu) != Ok(true)
  }

  /** The result of a define sent to node n: NotFound exactly if the descriptor or its hypervisor was
      missing when they were read; otherwise a new instance there, at rest, unless the UUID drawn for
      it was in use. */
  ghost predicate DefinedOn(origin: World, random: Random, h: History, m: Moments, h': History, alone: bool, n: Uuid,
                            fdu: Uuid, r: Result<FDURecord>) {
    && Moment(origin, h, m.read, h', alone)
    && if !Hosted(m.read.world, n, fdu) then r == Err(NotFound)
       else
         && Moment(origin, h, m.called, h', alone)
         && r == DrawnInstance(random, m.called.world.issued, n, fdu)
         && (r.Ok? ==> r.value.uuid !in h.world.issued && AtRest(h'.world, r.value.uuid, r.value))
  }

  lemma LaterDefined(origin: World, random: Random, h: History, h1: History, m: Moments, h': History, alone: bool,
                     n: Uuid, fdu: Uuid, r: Result<FDURecord>)
    requires h.trace <= h1.trace && SameSetup(h.world, h1.world) && (alone ==> Calm(h, h1))
    requires h.world.issued <= h1.world.issued && DefinedOn(origin, random, h1, m, h', alone, n, fdu, r)
    ensures DefinedOn(origin, random, h, m, h', alone, n, fdu, r)
  {
  }

  /** When each node was asked, the node that was selected, and when that one defined. */
  datatype Choice = Choice(asked: map<Uuid, History>, node: Uuid, define: Moments)

  /** The result of a schedule_fdu: NotFound when no node answered Ok(true) when it was asked, and
      otherwise what the define on one of those that did comes to. */
  ghost predicate Scheduled(origin: World, random: Random, h: History, choice: Choice, h': History, alone: bool,
                            fdu: Uuid, r: Result<FDURecord>) {
    && AskedAt(origin, h, choice.asked, h', alone)
    && if NoneAccepted(h.world, choice.asked, fdu) then r == Err(NotFound)
       else
         && Accepted(h.world, choice.asked, fdu, choice.node)
         && DefinedOn(origin, random, h, choice.define, h', alone, choice.node, fdu, r)
  }

  lemma ChosenDefines(origin: World, random: Random, h: History, moments: map<Uuid, History>, h1: History, m: Moments,
                      h': History, alone: bool, n: Uuid, fdu: Uuid, r: Result<FDURecord>)
    requires AskedAt(origin, h, moments, h1, alone) && h1.trace <= h'.trace && Accepted(h.world, moments, fdu, n)
    requires h.trace <= h1.trace && SameSetup(h.world, h1.world) && (alone ==> Calm(h, h1))
    requires h.world.issued <= h1.world.issued && DefinedOn(origin, random, h1, m, h', alone, n, fdu, r)
    ensures Scheduled(origin, random, h, Choice(moments, n, m), h', alone, fdu, r)
  {
    AskedEarlier(origin, h, moments, h1, h', alone);
    LaterDefined(origin, random, h, h1, m, h', alone, n, fdu, r);
  }

  /** When nobody else acts a node that accepts still hosts when it defines. */
  lemma ChosenHosts(origin: World, random: Random, h: History, choice: Choice, h': History, fdu: Uuid,
                    r: Result<FDURecord>)
    requires Scheduled(origin, random, h, choice, h', true, fdu, r) && !NoneAccepted(h.world, choice.asked, fdu)
    ensures Hosted(choice.define.read.world, choice.node, fdu)
  {
    assert Moment(origin, h, choice.asked[choice.node], h', true);
    AcceptedStaysHosted(h, choice.asked[choice.node], choice.define.read, choice.node, fdu);
  }

  /** Then only the draw decides. */
  lemma ScheduledAlone(origin: World, random: Random, h: History, choice: Choice, h': History, fdu: Uuid,
                       r: Result<FDURecord>)
    requires Scheduled(origin, random, h, choice, h', true, fdu, r) && !NoneAccepted(h.world, choice.asked, fdu)
    ensures r == DrawnInstance(random, choice.define.called.world.issued, choice.node, fdu)
  {
    ChosenHosts(origin, random, h, choice, h', fdu, r);
  }

  lemma AcceptingNode(w: World, at: Uuid, check: Uuid -> Result<bool>, c: Uuid) returns (n: Uuid)
    requires StandsForAccepting(w, at, check, c)
    ensures n in w.nodes && check(n) == Ok(true) && StandsFor(w, at, c, n)
  {
    n :| n in w.nodes && check(n) == Ok(true) && StandsFor(w, at, c, n);
  }

  lemma CandidatesStand(w: World, at: Uuid, check: Uuid -> Result<bool>, nodes: seq<NodeInfo>)
    requires Routed(w) && at in w.infos && Advertised(w.infos, nodes)
    ensures forall c | c in CandidatesAt(w, at, check, nodes) :: StandsForAccepting(w, at, check, c)
  {
    forall c | c in CandidatesAt(w, at, check, nodes) ensures StandsForAccepting(w, at, check, c) {
      var n := CandidateHosts(w, at, check, nodes, c);
    }
  }

  /** The node that a candidate stands for has accepted. */
  lemma CandidateHosts(w: World, at: Uuid, check: Uuid -> Result<bool>, nodes: seq<NodeInfo>, c: Uuid) returns (n: Uuid)
    requires Routed(w) && at in w.infos && Advertised(w.infos, nodes) && c in CandidatesAt(w, at, check, nodes)
    ensures n in w.nodes && check(n) == Ok(true) && StandsFor(w, at, c, n)
  {
    forall k | 0 <= k < |nodes| ensures nodes[k].agentServiceUuid != at {
      assert nodes[k].uuid in w.infos;
    }
    CandidateAccepted(nodes, w.infos[at].agentServiceUuid, Verdicts(w.infos, check), at, check(at), c);
    if c == at {
      n := at;
    } else {
      var k :| 0 <= k < |nodes| && nodes[k].agentServiceUuid == c;
      n := nodes[k].uuid;
      VerdictOf(w.infos, check, n);
    }
  }

  /** The clients' answers and the caller's own, put together. */
  lemma AllCandidates(w: World, at: Uuid, nodes: seq<NodeInfo>, check: Uuid -> Result<bool>,
                      check': Uuid -> Result<bool>, compatibles: seq<Uuid>)
    requires Routed(w) && at in w.infos && Advertised(w.infos, nodes) && forall n | n != at :: check'(n) == check(n)
    requires compatibles == Accepting(RemoteServices(nodes, w.infos[at].agentServiceUuid), Verdicts(w.infos, check))
                              + if check'(at) == Ok(true) then [at] else []
    ensures compatibles == CandidatesAt(w, at, check', nodes)
  {
    OthersAnswerAlike(w, at, nodes, check, check');
  }

  lemma OneCheckMore(moments: map<Uuid, History>, n: Uuid, m: History, fdu: Uuid)
    ensures Checks(moments[n := m], fdu)(n) == CheckFdu(m.world, n, fdu)
    ensures forall k | k != n :: Checks(moments[n := m], fdu)(k) == Checks(moments, fdu)(k)
  {
  }

  /** m is when the caller asked itself. */
  lemma SelfIncluded(w: World, at: Uuid, fdu: Uuid, nodes: seq<NodeInfo>, others: map<Uuid, History>, m: History,
                     compatibles: seq<Uuid>)
    requires Routed(w) && at in w.infos && Advertised(w.infos, nodes)
    requires compatibles
      == Accepting(RemoteServices(nodes, w.infos[at].agentServiceUuid), Verdicts(w.infos, Checks(others, fdu)))
                              + if CheckFdu(m.world, at, fdu) == Ok(true) then [at] else []
    ensures compatibles == CandidatesAt(w, at, Checks(others[at := m], fdu), nodes)
  {
    OneCheckMore(others, at, m, fdu);
    AllCandidates(w, at, nodes, Checks(others, fdu), Checks(others[at := m], fdu), compatibles);
  }

  lemma OthersAnswerAlike(w: World, at: Uuid, nodes: seq<NodeInfo>, check: Uuid -> Result<bool>,
                          check': Uuid -> Result<bool>)
    requires Routed(w) && at in w.infos && Advertised(w.infos, nodes) && forall n | n != at :: check'(n) == check(n)
    ensures var clients := RemoteServices(nodes, w.infos[at].agentServiceUuid);
      Accepting(clients, Verdicts(w.infos, check')) == Accepting(clients, Verdicts(w.infos, check))
  {
    var clients := RemoteServices(nodes, w.infos[at].agentServiceUuid);
    ClientsServed(w, at, nodes);
    forall s | s in clients ensures Verdict(w.infos, check', s) == Verdict(w.infos, check, s) {
      SelfChangesNothing(w.infos, at, clients, s, check, check');
    }
    AcceptingSame(clients, Verdicts(w.infos, check'), Verdicts(w.infos, check));
  }

  /** What a node that accepts is listed as: the caller by its node UUID, the others by their services. */
  function CandidateOf(w: World, at: Uuid, n: Uuid): Uuid
    requires n in w.infos
  {
    if n == at then at else w.infos[n].agentServiceUuid
  }

  /** Every node that accepts is listed, and nothing is listed twice. */
  ghost predicate AllListed(w: World, at: Uuid, check: Uuid -> Result<bool>, compatibles: seq<Uuid>) {
    NoDup(compatibles) && forall n | n in w.infos && check(n) == Ok(true) :: CandidateOf(w, at, n) in compatibles
  }

  lemma CandidatesComplete(w: World, at: Uuid, check: Uuid -> Result<bool>, nodes: seq<NodeInfo>)
    requires Routed(w) && at in w.infos && Advertised(w.infos, nodes)
    ensures AllListed(w, at, check, CandidatesAt(w, at, check, nodes))
  {
    forall n | n in w.infos && check(n) == Ok(true)
      ensures CandidateOf(w, at, n) in CandidatesAt(w, at, check, nodes)
    {
      AcceptingListed(w, at, check, nodes, n);
    }
    CandidatesDiffer(w, at, check, nodes);
  }

  lemma AcceptingListed(w: World, at: Uuid, check: Uuid -> Result<bool>, nodes: seq<NodeInfo>, n: Uuid)
    requires Routed(w) && at in w.infos && Advertised(w.infos, nodes) && n in w.infos && check(n) == Ok(true)
    ensures CandidateOf(w, at, n) in CandidatesAt(w, at, check, nodes)
  {
    var k :| 0 <= k < |nodes| && nodes[k] == w.infos[n];
    VerdictOf(w.infos, check, n);
    AllAcceptingListed(nodes, w.infos[at].agentServiceUuid, Verdicts(w.infos, check), at, check(at));
  }

  lemma CandidatesDiffer(w: World, at: Uuid, check: Uuid -> Result<bool>, nodes: seq<NodeInfo>)
    requires Routed(w) && at in w.infos && Advertised(w.infos, nodes)
    ensures NoDup(CandidatesAt(w, at, check, nodes))
  {
    var clients := RemoteServices(nodes, w.infos[at].agentServiceUuid);
    ClientsServed(w, at, nodes);
    NodeIsNoClient(w, at, nodes);
    AcceptingDiffer(clients, Verdicts(w.infos, check));
    AcceptingAre(clients, Verdicts(w.infos, check));
    NoDupAppend(Accepting(clients, Verdicts(w.infos, check)), at);
  }

  lemma NodeIsNoClient(w: World, at: Uuid, nodes: seq<NodeInfo>)
    requires Routed(w) && at in w.infos && Advertised(w.infos, nodes)
    ensures at !in RemoteServices(nodes, w.infos[at].agentServiceUuid)
  {
    RemoteServicesAre(nodes, w.infos[at].agentServiceUuid);
    forall k | 0 <= k < |nodes| ensures nodes[k].agentServiceUuid != at {
      assert nodes[k].uuid in w.infos;
    }
  }

  /** What the candidates say about the nodes' answers. */
  lemma CandidatesMean(w: World, at: Uuid, fdu: Uuid, nodes: seq<NodeInfo>, moments: map<Uuid, History>,
                       compatibles: seq<Uuid>)
    requires Routed(w) && at in w.infos && Advertised(w.infos, nodes) && moments.Keys == w.nodes.Keys
    requires compatibles == CandidatesAt(w, at, Checks(moments, fdu), nodes)
    ensures CompatibleNodes(w, at, fdu, moments, compatibles)
  {
    var check := Checks(moments, fdu);
    NoneAcceptsIff(w, at, check, nodes);
    CandidatesStand(w, at, check, nodes);
    CandidatesComplete(w, at, check, nodes);
    ChecksAsked(w, moments, fdu);
  }

  lemma ChecksAsked(w: World, moments: map<Uuid, History>, fdu: Uuid)
    requires moments.Keys == w.nodes.Keys
    ensures NoneAccepted(w, moments, fdu) <==> forall n | n in w.nodes :: Checks(moments, fdu)(n) != Ok(true)
  {
    forall n | n in w.nodes ensures Checks(moments, fdu)(n) == CheckFdu(moments[n].world, n, fdu) {
    }
  }

  lemma AllNodesInMoments(w: World, at: Uuid, nodes: seq<NodeInfo>, others: map<Uuid, History>, m: History)
    requires Routed(w) && at in w.infos && Advertised(w.infos, nodes) && AskedClients(w, at, nodes, others)
    ensures others[at := m].Keys == w.nodes.Keys
  {
    ClientsOfOthers(w, at, nodes);
    AllButOne(w.infos.Keys, others, at, m);
  }

  lemma AllButOne<V>(keys: set<Uuid>, others: map<Uuid, V>, at: Uuid, m: V)
    requires at in keys && forall n :: n in others <==> n in keys && n != at
    ensures others[at := m].Keys == keys
  {
  }

  /** Exactly the nodes whose services are clients of at were asked. */
  ghost predicate AskedClients(w: World, at: Uuid, nodes: seq<NodeInfo>, others: map<Uuid, History>)
    requires at in w.infos
  {
    forall n ::
        n in others
        <==> n in w.infos && w.infos[n].agentServiceUuid in RemoteServices(nodes, w.infos[at].agentServiceUuid)
  }

  /** What a list of compatible nodes says about the nodes' answers: it has every node that accepted,
      once, and no other. */
  ghost predicate CompatibleNodes(w: World, at: Uuid, fdu: Uuid, moments: map<Uuid, History>, compatibles: seq<Uuid>) {
    && moments.Keys == w.nodes.Keys
    && (compatibles == [] <==> NoneAccepted(w, moments, fdu))
    && AllListed(w, at, Checks(moments, fdu), compatibles)
    && forall c | c in compatibles :: StandsForAccepting(w, at, Checks(moments, fdu), c)
  }

  lemma SelfAskedLast(origin: World, h: History, h1: History, h2: History, claimed: set<Uuid>, alone: bool, at: Uuid,
                      fdu: Uuid,
                      nodes: seq<NodeInfo>, others: map<Uuid, History>, accepting: seq<Uuid>, v: Result<bool>)
    requires Reached(origin, h.trace, h.world) && Reached(origin, h2.trace, h2.world)
    requires Waited(h, h1, claimed, alone) && Waited(h1, h2, claimed, alone)
    requires at in h.world.infos && Advertised(h.world.infos, nodes)
    requires AskedAt(origin, h, others, h1, alone) && AskedClients(h.world, at, nodes, others)
    requires accepting
      == Accepting(RemoteServices(nodes, h.world.infos[at].agentServiceUuid),
                   Verdicts(h.world.infos, Checks(others, fdu)))
    requires v == CheckFdu(h2.world, at, fdu)
    ensures CompatibleNodes(h.world, at, fdu, others[at := h2], accepting + if v == Ok(true) then [at] else [])
    ensures AskedAt(origin, h, others[at := h2], h2, alone) && Waited(h, h2, claimed, alone)
  {
    WaitedTrans(h, h1, h2, claimed, alone);
    var compatibles := accepting + if v == Ok(true) then [at] else [];
    ReachedRouted(origin, h.trace, h.world);
    AskedMore(origin, h, h1, h2, alone, others, at);
    AllNodesInMoments(h.world, at, nodes, others, h2);
    SelfIncluded(h.world, at, fdu, nodes, others, h2, compatibles);
    CandidatesMean(h.world, at, fdu, nodes, others[at := h2], compatibles);
  }

  lemma SelfChangesNothing(infos: map<Uuid, NodeInfo>, at: Uuid, clients: seq<Uuid>, s: Uuid,
                           check: Uuid -> Result<bool>, check': Uuid -> Result<bool>)
    requires OwnServices(infos) && ServedOnce(infos, clients) && s in clients
    requires forall n | n in infos :: infos[n].agentServiceUuid in clients <==> n != at
    requires forall n | n != at :: check'(n) == check(n)
    ensures Verdict(infos, check', s) == Verdict(infos, check, s)
  {
    var j :| 0 <= j < |clients| && clients[j] == s;
    var p :| p in infos && infos[p].agentServiceUuid == clients[j];
    VerdictOf(infos, check, p);
    VerdictOf(infos, check', p);
  }
}
