/** Descheduling an entity: every instance is stopped, cleaned and undefined, and the descriptors
    are offloaded; when nobody else acts it undoes scheduling on every node. */
module Descheduling {
  import opened Model
  import opened Protocol
  import opened Runs
  import opened Replication
  import opened Resources
  import opened Calls
  import opened AgentSteps
  import opened Agent
  import opened Entities

  // ---------------------------------------------------------------- one instance

  /** Neither a record nor a call: in a serialised run such an instance is nowhere. */
  ghost predicate Erased(w: World, i: Uuid) {
    i !in w.records && i !in w.inflight && i in w.issued
  }

  lemma ErasedGone(origin: World, h: History, i: Uuid)
    requires Reached(origin, h.trace, h.world)
    ensures Erased(h.world, i) <==> Gone(h.world, i)
  {
    ReachedFacts(origin, h.trace, h.world);
    assert InstanceOk(h.world, i);
    forall n | n in h.world.nodes ensures h.world.nodes[n].cache == h.world.nodes[n].local {
      assert Tidy(h.world.nodes[n], n, h.world.issued);
    }
  }

  lemma RestingRecord(origin: World, h: History, i: Uuid)
    requires Reached(origin, h.trace, h.world) && i in h.world.records && i !in h.world.inflight
    ensures AtRest(h.world, i, h.world.records[i]) && h.world.records[i].node in h.world.nodes
  {
    ReachedFacts(origin, h.trace, h.world);
    QuietRecord(h.world, i);
  }

  lemma ErasedFrom(origin: World, h: History, h1: History, read: History, h2: History, alone: bool, i: Uuid,
                   rec: FDURecord, r: Result<FDURecord>)
    requires AtRest(h1.world, i, rec) && Undefined(origin, h1, read, h2, alone, i, r)
    requires Reached(origin, h2.trace, h2.world)
    requires SameSetup(h.world, h1.world) && (alone ==> Calm(h, h1))
    ensures r.Ok? ==> Erased(h2.world, i)
    ensures r.Err? ==> AtRest(h2.world, i, rec)
    ensures alone && Hosted(h.world, rec.node, rec.fduUuid) && rec.status == DEFINED ==> r.Ok?
  {
    if r.Ok? { ErasedGone(origin, h2, i); } else { RestHeld(h1.world, h2.world, i, rec); }
  }

  /** Why an instance with this record cannot be stopped, cleaned and undefined. */
  ghost predicate StopFails(origin: World, h: History, h': History, alone: bool, rec: FDURecord, error: FError) {
    || (error == TransitionNotAllowed && rec.status != RUNNING)
    || (error == NotFound && Unhosted(origin, h, h', alone, rec.node, rec.fduUuid))
  }

  lemma EraseFails(origin: World, h: History, h1: History, read: History, h2: History, alone: bool, i: Uuid,
                   rec: FDURecord, r: Result<FDURecord>)
    requires AtRest(h1.world, i, rec) && Undefined(origin, h1, read, h2, alone, i, r)
    requires h.trace <= h1.trace && SameSetup(h1.world, h2.world) && (alone ==> Calm(h1, h2))
    ensures r.Err? && rec.status == DEFINED ==>
        r.error == NotFound && Unhosted(origin, h, h2, alone, rec.node, rec.fduUuid)
  {
    MomentLately(origin, h, h1, read, h2, alone);
  }

  /** Others act, then the owner's agent is asked to undefine the instance. */
  method Erase(c: Cluster, at: Uuid, i: Uuid, ghost rec: FDURecord) returns (r: Result<FDURecord>)
    requires c.Valid() && at in c.w.nodes && AtRest(c.w, i, rec) && i in c.claimed && rec.node == at
    modifies c
    ensures c.Valid() && c.claimed == old(c.claimed)
    ensures Steady(old(c.Now()), c.Now(), c.claimed, c.alone, {i}) && (c.alone ==> Calm(old(c.Now()), c.Now()))
    ensures r.Ok? ==> Erased(c.w, i)
    ensures r.Err? ==> AtRest(c.w, i, rec)
    ensures c.alone && Hosted(old(c.w), at, rec.fduUuid) && rec.status == DEFINED ==> r.Ok?
    ensures r.Err? && rec.status == DEFINED ==>
        r.error == NotFound && Unhosted(c.origin, old(c.Now()), c.Now(), c.alone, rec.node, rec.fduUuid)
  {
    c.Others();
    ghost var waited := c.Now();
    RestWaited(old(c.Now()), waited, c.claimed, c.alone, i, rec);
    ghost var m;
    r, m := c.UndefineFdu(at, i);
    ErasedFrom(c.origin, old(c.Now()), waited, m.read, c.Now(), c.alone, i, rec, r);
    EraseFails(c.origin, old(c.Now()), waited, m.read, c.Now(), c.alone, i, rec, r);
    WaitedThen(old(c.Now()), waited, c.Now(), c.claimed, c.alone, {i});
  }

  /** The instance runs and nothing stands in the way of operating it. */
  ghost predicate Stoppable(w: World, i: Uuid) {
    i in w.records && i !in w.inflight && w.records[i].status == RUNNING && Operable(w, i)
  }

  /** Why the instance could not be erased between h and h': it had no record, or that could not be
      stopped, cleaned and undefined. */
  ghost predicate StopRefused(origin: World, h: History, h': History, alone: bool, i: Uuid, error: FError) {
    || (error == NotFound && Recordless(origin, h, h', alone, i))
    || (i in h.world.records && StopFails(origin, h, h', alone, h.world.records[i], error))
  }

  ghost predicate Recordless(origin: World, h: History, h': History, alone: bool, i: Uuid) {
    exists m: History :: Lately(origin, h, m, h', alone) && i !in m.world.records
  }

  lemma StillRecordless(origin: World, h: History, h1: History, h2: History, h': History, alone: bool, i: Uuid)
    requires Recordless(origin, h1, h2, alone, i) && h.trace <= h1.trace && h2.trace <= h'.trace
    requires SameSetup(h2.world, h'.world) && (alone ==> h'.world.catalog == h2.world.catalog)
    ensures Recordless(origin, h, h', alone, i)
  {
    var m :| Lately(origin, h1, m, h2, alone) && i !in m.world.records;
    LatelyWider(origin, h, h1, m, h2, h', alone);
  }

  lemma StillFails(origin: World, h: History, h1: History, h2: History, h': History, alone: bool, rec: FDURecord,
                   error: FError)
    requires StopFails(origin, h1, h2, alone, rec, error) && h.trace <= h1.trace && h2.trace <= h'.trace
    requires SameSetup(h2.world, h'.world) && (alone ==> h'.world.catalog == h2.world.catalog)
    ensures StopFails(origin, h, h', alone, rec, error)
  {
    if error == NotFound { StillUnhosted(origin, h, h1, h2, h', alone, rec.node, rec.fduUuid); }
  }

  /** A refusal is one in any longer stretch, before which the instance had the same record. */
  lemma StillStopRefused(origin: World, h: History, h1: History, h2: History, h': History, alone: bool, i: Uuid,
                         error: FError)
    requires StopRefused(origin, h1, h2, alone, i, error) && h.trace <= h1.trace && h2.trace <= h'.trace
    requires SameSetup(h2.world, h'.world) && (alone ==> h'.world.catalog == h2.world.catalog)
    requires i in h1.world.records ==> i in h.world.records && h.world.records[i] == h1.world.records[i]
    ensures StopRefused(origin, h, h', alone, i, error)
  {
    if i in h1.world.records && StopFails(origin, h1, h2, alone, h1.world.records[i], error) {
      StillFails(origin, h, h1, h2, h', alone, h1.world.records[i], error);
    } else {
      StillRecordless(origin, h, h1, h2, h', alone, i);
    }
  }

  /** One turn of the stopping loop: stop, clean and undefine one instance. */
  method StopOne(c: Cluster, at: Uuid, i: Uuid) returns (r: Result<()>)
    requires c.Valid() && at in c.w.nodes && i in c.claimed && i !in c.w.inflight
    modifies c
    ensures c.Valid() && c.claimed == old(c.claimed)
    ensures Steady(old(c.Now()), c.Now(), c.claimed, c.alone, {i}) && (c.alone ==> Calm(old(c.Now()), c.Now()))
    ensures i !in c.w.inflight && (r.Ok? ==> i in old(c.w).records && Erased(c.w, i))
    ensures c.alone && WellFormedRun(old(c.trace)) && Stoppable(old(c.w), i) ==> r.Ok?
    ensures WellFormedRun(c.trace) && r.Err? ==> StopRefused(c.origin, old(c.Now()), c.Now(), c.alone, i, r.error)
  {
    c.Others();
    ghost var waited := c.Now();
    IdleWaited(old(c.Now()), waited, c.claimed, c.alone, i);
    if i !in c.w.records {
      NoRecord(c.origin, old(c.Now()), waited, c.alone, i);
      return Err(NotFound);
    }
    RestingRecord(c.origin, c.Now(), i);
    r := StopRecorded(c, at, i);
    WaitedThen(old(c.Now()), waited, c.Now(), c.claimed, c.alone, {i});
    if r.Err? && WellFormedRun(c.trace) {
      StillStopRefused(c.origin, old(c.Now()), waited, c.Now(), c.Now(), c.alone, i, r.error);
    }
  }

  lemma NoRecord(origin: World, h: History, m: History, alone: bool, i: Uuid)
    requires Reached(origin, m.trace, m.world) && h.trace <= m.trace && i !in m.world.records
    ensures Recordless(origin, h, m, alone, i)
  {
    assert Lately(origin, h, m, m, alone);
  }

  /** What the job knows of an idle instance is still so after others have acted. */
  lemma IdleWaited(h: History, h1: History, claimed: set<Uuid>, alone: bool, i: Uuid)
    requires Waited(h, h1, claimed, alone) && i in claimed && i !in h.world.inflight
    ensures i !in h1.world.inflight && (i in h1.world.records <==> i in h.world.records)
    ensures i in h.world.records ==> h1.world.records[i] == h.world.records[i]
    ensures Steady(h, h1, claimed, alone, {i})
    ensures alone && Stoppable(h.world, i) ==> Stoppable(h1.world, i)
    ensures alone && WellFormedRun(h.trace) ==> WellFormedRun(h1.trace)
  {
    assert Held(h.world, h1.world, i);
    SteadyWiden(h, h1, claimed, alone, {}, {i});
    if alone && Stoppable(h.world, i) { StoppableStays(h, h1, i); }
  }

  /** Stop, clean and undefine an instance whose record has been read. */
  method StopRecorded(c: Cluster, at: Uuid, i: Uuid) returns (r: Result<()>)
    requires c.Valid() && at in c.w.nodes && i in c.claimed
    requires i in c.w.records && AtRest(c.w, i, c.w.records[i]) && c.w.records[i].node in c.w.nodes
    modifies c
    ensures c.Valid() && c.claimed == old(c.claimed)
    ensures Steady(old(c.Now()), c.Now(), c.claimed, c.alone, {i}) && (c.alone ==> Calm(old(c.Now()), c.Now()))
    ensures i !in c.w.inflight && (r.Ok? ==> Erased(c.w, i))
    ensures c.alone && WellFormedRun(old(c.trace)) && Stoppable(old(c.w), i) ==> r.Ok?
    ensures WellFormedRun(c.trace) && r.Err? ==> StopRefused(c.origin, old(c.Now()), c.Now(), c.alone, i, r.error)
  {
    var instance := c.w.records[i];
    var n := AgentOf(c, at, instance.node);
    var cleaned := StopAndClean(c, n.value, i, instance);
    ghost var h2 := c.Now();
    if cleaned.Err? {
      return Err(cleaned.error);
    }
    var undefined := Erase(c, n.value, i, cleaned.value);
    SteadyAgain(old(c.Now()), h2, c.Now(), c.claimed, c.claimed, c.alone, {i});
    if undefined.Err? {
      CleanedFails(c.origin, old(c.Now()), h2, c.Now(), c.alone, instance, cleaned.value, undefined.error);
      return Err(undefined.error);
    }
    r := Ok(());
  }

  /** What stops a cleaned or stopped instance from being undefined is that it is not hosted. */
  lemma CleanedFails(origin: World, h: History, h1: History, h': History, alone: bool, rec: FDURecord, rec1: FDURecord,
                     error: FError)
    requires error == NotFound && Unhosted(origin, h1, h', alone, rec1.node, rec1.fduUuid) && h.trace <= h1.trace
    requires rec1.node == rec.node && rec1.fduUuid == rec.fduUuid
    ensures StopFails(origin, h, h', alone, rec, error)
  {
    StillUnhosted(origin, h, h1, h', h', alone, rec.node, rec.fduUuid);
  }

  /** Stop and clean, sent to the agent of node at. */
  method StopAndClean(c: Cluster, at: Uuid, i: Uuid, ghost instance: FDURecord) returns (r: Result<FDURecord>)
    requires c.Valid() && at in c.w.nodes && i in c.claimed && AtRest(c.w, i, instance)
    modifies c
    ensures c.Valid() && c.claimed == old(c.claimed) && i !in c.w.inflight
    ensures Steady(old(c.Now()), c.Now(), c.claimed, c.alone, {i}) && (c.alone ==> Calm(old(c.Now()), c.Now()))
    ensures r.Ok? ==> AtRest(c.w, i, r.value) && SameInstance(instance, r.value, DEFINED)
    ensures c.alone && WellFormedRun(old(c.trace)) && Stoppable(old(c.w), i) ==> r.Ok?
    ensures WellFormedRun(c.trace) && r.Err? ==>
        StopFails(c.origin, old(c.Now()), c.Now(), c.alone, instance, r.error)
  {
    r := Perform(c, at, STOP, i, instance);
    if r.Err? {
      return;
    }
    r := CleanStopped(c, at, i, r.value, old(c.Now()), instance);
  }

  /** The clean of an instance that was stopped since start. */
  method CleanStopped(c: Cluster, at: Uuid, i: Uuid, ghost stopped: FDURecord, ghost start: History,
                      ghost instance: FDURecord)
    returns (r: Result<FDURecord>)
    requires c.Valid() && at in c.w.nodes && i in c.claimed && AtRest(c.w, i, stopped)
    requires SameInstance(instance, stopped, CONFIGURED)
    requires Steady(start, c.Now(), c.claimed, c.alone, {i}) && (c.alone ==> Calm(start, c.Now()))
    modifies c
    ensures c.Valid() && c.claimed == old(c.claimed) && i !in c.w.inflight
    ensures Steady(start, c.Now(), c.claimed, c.alone, {i}) && (c.alone ==> Calm(start, c.Now()))
    ensures r.Ok? ==> AtRest(c.w, i, r.value) && SameInstance(instance, r.value, DEFINED)
    ensures c.alone && WellFormedRun(old(c.trace)) && Hosted(old(c.w), instance.node, instance.fduUuid) ==> r.Ok?
    ensures WellFormedRun(c.trace) && r.Err? ==> StopFails(c.origin, start, c.Now(), c.alone, instance, r.error)
  {
    ghost var h1 := c.Now();
    r := Perform(c, at, CLEAN, i, stopped);
    SteadyAgain(start, h1, c.Now(), c.claimed, c.claimed, c.alone, {i});
    if r.Err? && WellFormedRun(c.trace) {
      CleanedFails(c.origin, start, h1, c.Now(), c.alone, instance, stopped, r.error);
    }
  }

  // ---------------------------------------------------------------- all instances

  ghost predicate AllErased(w: World, ids: seq<Uuid>) {
    forall k | 0 <= k < |ids| :: Erased(w, ids[k])
  }

  ghost predicate AllStoppable(w: World, ids: seq<Uuid>) {
    forall k | 0 <= k < |ids| :: Stoppable(w, ids[k])
  }

  ghost predicate AllIdle(w: World, claimed: set<Uuid>, ids: seq<Uuid>) {
    forall k | 0 <= k < |ids| :: ids[k] in claimed && ids[k] !in w.inflight
  }

  /** The first k of ids were erased, nothing but them was touched. */
  ghost predicate Stopped(h: History, h': History, claimed: set<Uuid>, alone: bool, ids: seq<Uuid>, k: nat)
    requires k <= |ids|
  {
    && Steady(h, h', claimed, alone, SetOf(ids[..k]))
    && AllErased(h'.world, ids[..k])
    && (alone ==> Calm(h, h'))
  }

  /** What is left of the loop is as it was. */
  lemma RestUntouched(h: History, h': History, claimed: set<Uuid>, alone: bool, ids: seq<Uuid>, k: nat)
    requires k < |ids| && Steady(h, h', claimed, alone, SetOf(ids[..k])) && ids[k] in claimed && ids[k] !in ids[..k]
    ensures Held(h.world, h'.world, ids[k])
  {
  }

  lemma StoppableStays(h: History, h': History, i: Uuid)
    requires Held(h.world, h'.world, i) && SameSetup(h.world, h'.world) && Calm(h, h') && Stoppable(h.world, i)
    ensures Stoppable(h'.world, i)
  {
  }

  lemma StoppedMore(h: History, h1: History, h2: History, claimed: set<Uuid>, alone: bool, ids: seq<Uuid>, k: nat)
    requires k < |ids| && Stopped(h, h1, claimed, alone, ids, k) && Steady(h1, h2, claimed, alone, {ids[k]})
    requires AllIdle(h.world, claimed, ids) && (alone ==> Calm(h1, h2))
    requires ids[k] in h1.world.records && Erased(h2.world, ids[k])
    ensures Stopped(h, h2, claimed, alone, ids, k + 1)
  {
    SteadyTrans(h, h1, h2, claimed, claimed, alone, SetOf(ids[..k]), {ids[k]});
    var more := ids[..k + 1];
    assert more == ids[..k] + [ids[k]];
    assert SetOf(more) == SetOf(ids[..k]) + {ids[k]};
    forall j | 0 <= j < |more| ensures Erased(h2.world, more[j]) {
      if j < k {
        assert more[j] == ids[..k][j] == ids[j];
        assert Erased(h1.world, ids[..k][j]);
        assert Held(h1.world, h2.world, ids[j]);
      }
    }
  }

  /** One of the instances could not be erased. */
  ghost predicate SomeStopRefused(origin: World, h: History, h': History, alone: bool, ids: seq<Uuid>, error: FError) {
    exists k :: 0 <= k < |ids| && StopRefused(origin, h, h', alone, ids[k], error)
  }

  lemma StillSomeStopRefused(origin: World, h: History, h1: History, h2: History, h': History, alone: bool,
                             ids: seq<Uuid>, error: FError)
    requires SomeStopRefused(origin, h1, h2, alone, ids, error) && h.trace <= h1.trace && h2.trace <= h'.trace
    requires SameSetup(h2.world, h'.world) && (alone ==> h'.world.catalog == h2.world.catalog)
    requires forall k | 0 <= k < |ids| && ids[k] in h1.world.records ::
        ids[k] in h.world.records && h.world.records[ids[k]] == h1.world.records[ids[k]]
    ensures SomeStopRefused(origin, h, h', alone, ids, error)
  {
    var k :| 0 <= k < |ids| && StopRefused(origin, h1, h2, alone, ids[k], error);
    StillStopRefused(origin, h, h1, h2, h', alone, ids[k], error);
  }

  /** The stopping loop of the descheduling job. */
  method StopAll(c: Cluster, at: Uuid, ids: seq<Uuid>) returns (r: Result<()>)
    requires c.Valid() && at in c.w.nodes && AllIdle(c.w, c.claimed, ids)
    modifies c
    ensures c.Valid() && c.claimed == old(c.claimed)
    ensures Steady(old(c.Now()), c.Now(), c.claimed, c.alone, SetOf(ids)) && (c.alone ==> Calm(old(c.Now()), c.Now()))
    ensures r.Ok? ==> AllErased(c.w, ids)
    ensures c.alone && WellFormedRun(old(c.trace)) && NoDup(ids) && AllStoppable(old(c.w), ids) ==> r.Ok?
    ensures WellFormedRun(c.trace) && r.Err? ==>
        SomeStopRefused(c.origin, old(c.Now()), c.Now(), c.alone, ids, r.error)
  {
    SteadyRefl(c.Now(), c.claimed, c.alone, {});
    assert SetOf(ids[..0]) == {};
    for k := 0 to |ids|
      invariant c.Valid() && c.claimed == old(c.claimed)
      invariant Stopped(old(c.Now()), c.Now(), c.claimed, c.alone, ids, k)
    {
      var one := StopNext(c, at, ids, k, old(c.Now()));
      if one.Err? {
        return one;
      }
    }
    assert ids[..|ids|] == ids;
    r := Ok(());
  }

  method StopNext(c: Cluster, at: Uuid, ids: seq<Uuid>, k: nat, ghost start: History) returns (r: Result<()>)
    requires c.Valid() && at in c.w.nodes && k < |ids| && Stopped(start, c.Now(), c.claimed, c.alone, ids, k)
    requires AllIdle(start.world, c.claimed, ids)
    modifies c
    ensures c.Valid() && c.claimed == old(c.claimed)
    ensures Steady(start, c.Now(), c.claimed, c.alone, SetOf(ids)) && (c.alone ==> Calm(start, c.Now()))
    ensures r.Ok? ==> Stopped(start, c.Now(), c.claimed, c.alone, ids, k + 1)
    ensures c.alone && WellFormedRun(start.trace) && NoDup(ids) && AllStoppable(start.world, ids) ==> r.Ok?
    ensures WellFormedRun(c.trace) && r.Err? ==> StopRefused(c.origin, start, c.Now(), c.alone, ids[k], r.error)
  {
    ghost var before := c.Now();
    IdleStays(start, before, c.claimed, c.alone, ids, k);
    r := StopOne(c, at, ids[k]);
    StoppedSome(start, before, c.Now(), c.claimed, c.alone, ids, k);
    if r.Ok? {
      StoppedMore(start, before, c.Now(), c.claimed, c.alone, ids, k);
    } else if WellFormedRun(c.trace) {
      StillStopRefused(c.origin, start, before, c.Now(), c.Now(), c.alone, ids[k], r.error);
    }
  }

  /** The next instance has no call in flight, and can still be stopped if it could be. */
  lemma IdleStays(h: History, h': History, claimed: set<Uuid>, alone: bool, ids: seq<Uuid>, k: nat)
    requires k < |ids| && Stopped(h, h', claimed, alone, ids, k) && AllIdle(h.world, claimed, ids)
    ensures ids[k] !in h'.world.inflight
    ensures ids[k] in h'.world.records ==>
        ids[k] in h.world.records && h.world.records[ids[k]] == h'.world.records[ids[k]]
    ensures alone && ids[k] !in ids[..k] && Stoppable(h.world, ids[k]) ==> Stoppable(h'.world, ids[k])
  {
    if ids[k] in ids[..k] {
      var j :| 0 <= j < |ids[..k]| && ids[..k][j] == ids[k];
      assert Erased(h'.world, ids[..k][j]);
    } else {
      RestUntouched(h, h', claimed, alone, ids, k);
      if alone && Stoppable(h.world, ids[k]) { StoppableStays(h, h', ids[k]); }
    }
  }

  lemma StoppedSome(h: History, h1: History, h2: History, claimed: set<Uuid>, alone: bool, ids: seq<Uuid>, k: nat)
    requires k < |ids| && Stopped(h, h1, claimed, alone, ids, k) && Steady(h1, h2, claimed, alone, {ids[k]})
    requires alone ==> Calm(h1, h2)
    ensures Steady(h, h2, claimed, alone, SetOf(ids)) && (alone ==> Calm(h, h2))
  {
    SteadyTrans(h, h1, h2, claimed, claimed, alone, SetOf(ids[..k]), {ids[k]});
    SteadyWiden(h, h2, claimed, alone, SetOf(ids[..k]) + {ids[k]}, SetOf(ids));
  }

  // ---------------------------------------------------------------- offloading

  /** When nobody else acts: these descriptors were removed from the catalog. */
  ghost predicate Offloaded(h: History, h': History, fdus: seq<FDUDescriptor>) {
    && h'.world.catalog == h.world.catalog - Ids(fdus) && h'.world.entities == h.world.entities
    && (WellFormedRun(h.trace) ==> WellFormedRun(h'.trace))
  }

  /** The FDUs' descriptors are catalogued, no two share a UUID, and no instance is of them. */
  ghost predicate Unused(w: World, fdus: seq<FDUDescriptor>) {
    && AllFilled(fdus) && Ids(fdus) <= w.catalog.Keys && w.inflight == map[]
    && (forall j, k | 0 <= j < k < |fdus| :: fdus[j].uuid != fdus[k].uuid)
    && (forall i | i in w.records :: w.records[i].fduUuid !in Ids(fdus))
  }

  lemma UnusedStays(h: History, h': History, claimed: set<Uuid>, fdus: seq<FDUDescriptor>, k: nat)
    requires Steady(h, h', claimed, true, {}) && Unused(h.world, fdus) && k < |fdus| && Offloaded(h, h', fdus[..k])
    ensures fdus[k].uuid.Some? && fdus[k].uuid.value in h'.world.catalog
    ensures forall i | i in h'.world.records :: h'.world.records[i].fduUuid != fdus[k].uuid.value
  {
    assert fdus[k].uuid.value in Ids(fdus);
    forall i | i in h'.world.records ensures h'.world.records[i].fduUuid != fdus[k].uuid.value {
      assert Held(h.world, h'.world, i);
    }
  }

  lemma OffloadedMore(h: History, h1: History, h2: History, h3: History, fdus: seq<FDUDescriptor>, k: nat)
    requires k < |fdus| && Offloaded(h, h1, fdus[..k]) && Calm(h1, h2) && fdus[k].uuid.Some?
    requires h3.world.catalog == h2.world.catalog - {fdus[k].uuid.value} && h3.world.entities == h2.world.entities
    requires WellFormedRun(h2.trace) ==> WellFormedRun(h3.trace)
    ensures Offloaded(h, h3, fdus[..k + 1])
  {
    var more := fdus[..k + 1];
    assert more == fdus[..k] + [fdus[k]];
    assert forall j | 0 <= j < k :: more[j] == fdus[..k][j];
    assert more[k] == fdus[k];
    assert Ids(more) == Ids(fdus[..k]) + {fdus[k].uuid.value};
  }

  /** Why a descriptor could not be offloaded between h and h': it was not catalogued, or had an instance. */
  ghost predicate OffloadRefused(origin: World, h: History, h': History, alone: bool, f: Uuid, error: FError) {
    exists m: History :: Lately(origin, h, m, h', alone) && InTheWay(m.world, f, error)
  }

  ghost predicate InTheWay(w: World, f: Uuid, error: FError) {
    || (error == NotFound && f !in w.catalog)
    || (error == HasInstances && exists i :: i in w.records && w.records[i].fduUuid == f)
  }

  lemma StillOffloadRefused(origin: World, h: History, h1: History, h2: History, h': History, alone: bool, f: Uuid,
                            error: FError)
    requires OffloadRefused(origin, h1, h2, alone, f, error) && h.trace <= h1.trace && h2.trace <= h'.trace
    requires SameSetup(h2.world, h'.world) && (alone ==> h'.world.catalog == h2.world.catalog)
    ensures OffloadRefused(origin, h, h', alone, f, error)
  {
    var m :| Lately(origin, h1, m, h2, alone) && InTheWay(m.world, f, error);
    LatelyWider(origin, h, h1, m, h2, h', alone);
  }

  lemma OffloadFails(origin: World, h: History, h1: History, listed: History, h': History, alone: bool, f: Uuid,
                     error: FError)
    requires Reached(origin, h1.trace, h1.world) && Moment(origin, h1, listed, h', alone)
    requires h.trace <= h1.trace && SameSetup(h1.world, h'.world) && (alone ==> Calm(h1, h'))
    requires error == if f in h1.world.catalog then HasInstances else NotFound
    requires f in h1.world.catalog ==> exists i :: i in listed.world.records && listed.world.records[i].fduUuid == f
    ensures OffloadRefused(origin, h, h', alone, f, error)
  {
    if f in h1.world.catalog {
      MomentLately(origin, h, h1, listed, h', alone);
      assert InTheWay(listed.world, f, error);
    } else {
      assert Lately(origin, h, h1, h', alone) && InTheWay(h1.world, f, error);
    }
  }

  /** One of the descriptors has no UUID, or could not be offloaded. */
  ghost predicate SomeOffloadRefused(origin: World, h: History, h': History, alone: bool, fdus: seq<FDUDescriptor>,
                                     error: FError) {
    || (error == MalformedDescriptor && !AllFilled(fdus))
    || exists f :: f in Ids(fdus) && OffloadRefused(origin, h, h', alone, f, error)
  }

  lemma StillSomeOffloadRefused(origin: World, h: History, h1: History, h2: History, h': History, alone: bool,
                                fdus: seq<FDUDescriptor>, error: FError)
    requires SomeOffloadRefused(origin, h1, h2, alone, fdus, error) && h.trace <= h1.trace && h2.trace <= h'.trace
    requires SameSetup(h2.world, h'.world) && (alone ==> h'.world.catalog == h2.world.catalog)
    ensures SomeOffloadRefused(origin, h, h', alone, fdus, error)
  {
    if error != MalformedDescriptor || AllFilled(fdus) {
      var f :| f in Ids(fdus) && OffloadRefused(origin, h1, h2, alone, f, error);
      StillOffloadRefused(origin, h, h1, h2, h', alone, f, error);
    }
  }

  /** From t to t' each of the descriptors was offloaded. */
  ghost predicate AllOffloaded(t: seq<Label>, t': seq<Label>, fdus: seq<FDUDescriptor>) {
    forall f | f in Ids(fdus) :: Did(t, t', Offload(f))
  }

  lemma StillAllOffloaded(t: seq<Label>, t1: seq<Label>, t2: seq<Label>, t': seq<Label>, fdus: seq<FDUDescriptor>)
    requires AllOffloaded(t1, t2, fdus) && t <= t1 && t2 <= t'
    ensures AllOffloaded(t, t', fdus)
  {
    forall f | f in Ids(fdus) ensures Did(t, t', Offload(f)) {
      StillDid(t, t1, t2, t', Offload(f));
    }
  }

  lemma OneOffloaded(t: seq<Label>, t1: seq<Label>, t2: seq<Label>, t3: seq<Label>, fdus: seq<FDUDescriptor>, k: nat)
    requires k < |fdus| && fdus[k].uuid.Some? && AllOffloaded(t, t1, fdus[..k]) && t <= t1 <= t2 <= t3
    requires Did(t2, t3, Offload(fdus[k].uuid.value))
    ensures AllOffloaded(t, t3, fdus[..k + 1])
  {
    StillAllOffloaded(t, t, t1, t3, fdus[..k]);
    StillDid(t, t2, t3, t3, Offload(fdus[k].uuid.value));
    assert fdus[..k + 1] == fdus[..k] + [fdus[k]];
    IdsAppend(fdus[..k], fdus[k]);
  }

  /** The offloading loop of the descheduling job. */
  method OffloadAll(c: Cluster, fdus: seq<FDUDescriptor>) returns (r: Result<()>)
    requires c.Valid()
    modifies c
    ensures c.Valid() && c.claimed == old(c.claimed)
    ensures Steady(old(c.Now()), c.Now(), c.claimed, c.alone, {})
    ensures c.alone && r.Ok? ==> Offloaded(old(c.Now()), c.Now(), fdus)
    ensures c.alone && Unused(old(c.w), fdus) ==> r.Ok?
    ensures r.Err? ==> SomeOffloadRefused(c.origin, old(c.Now()), c.Now(), c.alone, fdus, r.error)
    ensures r.Ok? ==> AllOffloaded(old(c.trace), c.trace, fdus)
  {
    SteadyRefl(c.Now(), c.claimed, c.alone, {});
    for k := 0 to |fdus|
      invariant c.Valid() && c.claimed == old(c.claimed)
      invariant Steady(old(c.Now()), c.Now(), c.claimed, c.alone, {})
      invariant c.alone ==> Offloaded(old(c.Now()), c.Now(), fdus[..k])
      invariant AllOffloaded(old(c.trace), c.trace, fdus[..k])
    {
      if fdus[k].uuid.None? {
        return Err(MalformedDescriptor);
      }
      var one := OffloadNext(c, fdus, k, old(c.Now()));
      if one.Err? {
        assert fdus[k].uuid.value in Ids(fdus);
        return Err(one.error);
      }
    }
    assert fdus[..|fdus|] == fdus;
    r := Ok(());
  }

  /** Others act, then one more descriptor is offloaded. */
  method OffloadNext(c: Cluster, fdus: seq<FDUDescriptor>, k: nat, ghost start: History) returns (r: Result<Uuid>)
    requires c.Valid() && k < |fdus| && fdus[k].uuid.Some? && Steady(start, c.Now(), c.claimed, c.alone, {})
    requires AllOffloaded(start.trace, c.trace, fdus[..k]) && (c.alone ==> Offloaded(start, c.Now(), fdus[..k]))
    modifies c
    ensures c.Valid() && c.claimed == old(c.claimed) && Steady(start, c.Now(), c.claimed, c.alone, {})
    ensures r.Ok? ==> AllOffloaded(start.trace, c.trace, fdus[..k + 1])
    ensures c.alone && r.Ok? ==> Offloaded(start, c.Now(), fdus[..k + 1])
    ensures c.alone && Unused(start.world, fdus) ==> r.Ok?
    ensures r.Err? ==> OffloadRefused(c.origin, start, c.Now(), c.alone, fdus[k].uuid.value, r.error)
  {
    ghost var before := c.Now();
    c.Others();
    ghost var waited := c.Now();
    SteadyAgain(start, before, waited, c.claimed, c.claimed, c.alone, {});
    ghost var listed;
    r, listed := c.OffloadFdu(fdus[k].uuid.value);
    SteadyAgain(start, waited, c.Now(), c.claimed, c.claimed, c.alone, {});
    SteadyAgain(start, waited, listed, c.claimed, c.claimed, c.alone, {});
    if r.Err? {
      OffloadFails(c.origin, start, waited, listed, c.Now(), c.alone, fdus[k].uuid.value, r.error);
    } else {
      OneOffloaded(start.trace, before.trace, waited.trace, c.trace, fdus, k);
    }
    if c.alone {
      UnusedListed(start, before, waited, listed, c.claimed, fdus, k);
      if r.Ok? { OffloadedMore(start, before, waited, c.Now(), fdus, k); }
    }
  }

  /** An unused descriptor is still there when it is its turn, and the listing shows no instance of it. */
  lemma UnusedListed(h: History, h1: History, h2: History, listed: History, claimed: set<Uuid>,
                     fdus: seq<FDUDescriptor>, k: nat)
    requires k < |fdus| && Offloaded(h, h1, fdus[..k]) && Calm(h1, h2) && Calm(h2, listed)
    requires Steady(h, h2, claimed, true, {}) && Steady(h, listed, claimed, true, {})
    ensures Unused(h.world, fdus) ==>
      && fdus[k].uuid.Some? && fdus[k].uuid.value in h2.world.catalog
      && forall i | i in listed.world.records :: listed.world.records[i].fduUuid != fdus[k].uuid.value
  {
    if Unused(h.world, fdus) {
      OffloadedCalm(h, h1, h2, fdus[..k]);
      OffloadedCalm(h, h2, listed, fdus[..k]);
      UnusedStays(h, h2, claimed, fdus, k);
      UnusedStays(h, listed, claimed, fdus, k);
    }
  }

  lemma OffloadedCalm(h: History, h1: History, h2: History, fdus: seq<FDUDescriptor>)
    requires Offloaded(h, h1, fdus) && Calm(h1, h2)
    ensures Offloaded(h, h2, fdus)
  {
  }

  // ---------------------------------------------------------------- the descheduling job

  /** The entity can be descheduled: its instances run, each its own, its descriptors are
      catalogued under distinct UUIDs, and there are no other instances of them. */
  ghost predicate Descheduable(h: History, instance: EntityRecord) {
    && WellFormedRun(h.trace) && h.world.inflight == map[]
    && instance.id in h.world.entities && NoDup(instance.fdus)
    && AllStoppable(h.world, instance.fdus)
    && OnlyThese(h.world, h.world.entities[instance.id].fdus, instance.fdus)
  }

  ghost predicate OnlyThese(w: World, fdus: seq<FDUDescriptor>, ids: seq<Uuid>) {
    && AllFilled(fdus) && Ids(fdus) <= w.catalog.Keys
    && (forall j, k | 0 <= j < k < |fdus| :: fdus[j].uuid != fdus[k].uuid)
    && (forall i | i in w.records && i !in ids :: w.records[i].fduUuid !in Ids(fdus))
  }

  /** Once its instances are erased the descriptors are unused. */
  lemma UnusedAfterStop(origin: World, h: History, h': History, claimed: set<Uuid>, e: Uuid, ids: seq<Uuid>,
                        fdus: seq<FDUDescriptor>)
    requires Steady(h, h', claimed, true, SetOf(ids) + {e}) && Calm(h, h') && h.world.inflight == map[]
    requires OnlyThese(h.world, fdus, ids) && AllErased(h'.world, ids)
    requires Reached(origin, h'.trace, h'.world) && e in h'.world.entityRecords
    ensures Unused(h'.world, fdus)
  {
    ReachedIdsApart(origin, h'.trace, h'.world);
    forall i ensures i !in h'.world.inflight && (i in h'.world.records ==> h'.world.records[i].fduUuid !in Ids(fdus)) {
      if i in ids {
        var k :| 0 <= k < |ids| && ids[k] == i;
        assert Erased(h'.world, ids[k]);
      } else if i != e {
        assert Held(h.world, h'.world, i);
      }
    }
    assert h'.world.inflight == map[];
  }

  /** Publishing does not change what is idle, stoppable or erased. */
  lemma PublishedKeeps(h: History, h': History, claimed: set<Uuid>, alone: bool, e: Uuid, ids: seq<Uuid>)
    requires Steady(h, h', claimed, alone, {e}) && AllIdle(h.world, claimed, ids) && e !in ids
    ensures AllIdle(h'.world, claimed, ids)
    ensures forall k | 0 <= k < |ids| && ids[k] in h'.world.records ::
        ids[k] in h.world.records && h.world.records[ids[k]] == h'.world.records[ids[k]]
    ensures Calm(h, h') && AllStoppable(h.world, ids) ==> AllStoppable(h'.world, ids)
  {
    forall k | 0 <= k < |ids|
      ensures ids[k] !in h'.world.inflight
      ensures Calm(h, h') && Stoppable(h.world, ids[k]) ==> Stoppable(h'.world, ids[k])
    {
      assert Held(h.world, h'.world, ids[k]);
      if Calm(h, h') && Stoppable(h.world, ids[k]) { StoppableStays(h, h', ids[k]); }
    }
  }

  /** Announce the stop, then stop all instances. */
  method StopInstances(c: Cluster, at: Uuid, instance: EntityRecord) returns (r: Result<()>)
    requires c.Valid() && at in c.w.nodes && instance.uuid in c.claimed && Publishable(c.w, instance)
    requires AllIdle(c.w, c.claimed, instance.fdus) && instance.uuid !in instance.fdus
    modifies c
    ensures c.Valid() && c.claimed == old(c.claimed) && Publishable(c.w, instance)
    ensures Steady(old(c.Now()), c.Now(), c.claimed, c.alone, SetOf(instance.fdus) + {instance.uuid})
    ensures c.alone ==> Calm(old(c.Now()), c.Now())
    ensures Shown(old(c.trace), c.trace, instance.uuid, [STOPPING])
    ensures r.Ok? ==> AllErased(c.w, instance.fdus)
    ensures c.alone && WellFormedRun(old(c.trace)) && NoDup(instance.fdus) && AllStoppable(old(c.w), instance.fdus) ==>
        r.Ok?
    ensures WellFormedRun(c.trace) && r.Err? ==>
        SomeStopRefused(c.origin, old(c.Now()), c.Now(), c.alone, instance.fdus, r.error)
  {
    c.Publish(instance.(status := STOPPING));
    PublishedKeeps(old(c.Now()), c.Now(), c.claimed, c.alone, instance.uuid, instance.fdus);
    r := StopAnnounced(c, at, instance, old(c.Now()));
  }

  /** The stop has been announced since start. */
  method StopAnnounced(c: Cluster, at: Uuid, instance: EntityRecord, ghost start: History) returns (r: Result<()>)
    requires c.Valid() && at in c.w.nodes && instance.uuid in c.claimed && Publishable(c.w, instance)
    requires AllIdle(c.w, c.claimed, instance.fdus) && instance.uuid !in instance.fdus
    requires Steady(start, c.Now(), c.claimed, c.alone, {instance.uuid}) && (c.alone ==> Calm(start, c.Now()))
    requires Shown(start.trace, c.trace, instance.uuid, [STOPPING])
    requires forall k | 0 <= k < |instance.fdus| && instance.fdus[k] in c.w.records ::
        instance.fdus[k] in start.world.records
        && start.world.records[instance.fdus[k]] == c.w.records[instance.fdus[k]]
    modifies c
    ensures c.Valid() && c.claimed == old(c.claimed) && Publishable(c.w, instance)
    ensures Steady(start, c.Now(), c.claimed, c.alone, SetOf(instance.fdus) + {instance.uuid})
    ensures c.alone ==> Calm(start, c.Now())
    ensures Shown(start.trace, c.trace, instance.uuid, [STOPPING])
    ensures r.Ok? ==> AllErased(c.w, instance.fdus)
    ensures c.alone && WellFormedRun(old(c.trace)) && NoDup(instance.fdus) && AllStoppable(old(c.w), instance.fdus) ==>
        r.Ok?
    ensures WellFormedRun(c.trace) && r.Err? ==>
        SomeStopRefused(c.origin, start, c.Now(), c.alone, instance.fdus, r.error)
  {
    var e := instance.uuid;
    ghost var h1 := c.Now();
    r := StopAll(c, at, instance.fdus);
    PublishableKept(h1, c.Now(), c.claimed, c.alone, SetOf(instance.fdus), instance);
    ShownNothing(start.trace, h1.trace, c.trace, e, [STOPPING]);
    SteadyTrans(start, h1, c.Now(), c.claimed, c.claimed, c.alone, {e}, SetOf(instance.fdus));
    SteadyWiden(start, c.Now(), c.claimed, c.alone, {e} + SetOf(instance.fdus), SetOf(instance.fdus) + {e});
    if r.Err? && WellFormedRun(c.trace) {
      StillSomeStopRefused(c.origin, start, h1, c.Now(), c.Now(), c.alone, instance.fdus, r.error);
    }
  }

  lemma UnusedPublished(origin: World, h: History, h': History, claimed: set<Uuid>, e: Uuid, fdus: seq<FDUDescriptor>)
    requires Steady(h, h', claimed, true, {e}) && Calm(h, h') && Unused(h.world, fdus)
    requires Reached(origin, h'.trace, h'.world) && e in h'.world.entityRecords
    ensures Unused(h'.world, fdus)
  {
    ReachedIdsApart(origin, h'.trace, h'.world);
    forall i ensures i !in h'.world.inflight && (i in h'.world.records ==> h'.world.records[i].fduUuid !in Ids(fdus)) {
      if i != e { assert Held(h.world, h'.world, i); }
    }
    assert h'.world.inflight == map[];
  }

  method AnnounceStopped(c: Cluster, instance: EntityRecord)
    requires c.Valid() && instance.uuid in c.claimed && Publishable(c.w, instance)
    modifies c
    ensures c.Valid() && c.claimed == old(c.claimed) && Publishable(c.w, instance)
    ensures Steady(old(c.Now()), c.Now(), c.claimed, c.alone, {instance.uuid})
    ensures c.alone ==> Calm(old(c.Now()), c.Now())
    ensures Shown(old(c.trace), c.trace, instance.uuid, [STOPPED, OFFLOADING])
  {
    c.Publish(instance.(status := STOPPED));
    ghost var h1 := c.Now();
    c.Publish(instance.(status := OFFLOADING));
    SteadyAgain(old(c.Now()), h1, c.Now(), c.claimed, c.claimed, c.alone, {instance.uuid});
  }

  /** Announce that all stopped, then offload the descriptors. */
  method RemoveDescriptors(c: Cluster, instance: EntityRecord, fdus: seq<FDUDescriptor>) returns (r: Result<()>)
    requires c.Valid() && instance.uuid in c.claimed && Publishable(c.w, instance)
    modifies c
    ensures c.Valid() && c.claimed == old(c.claimed) && Publishable(c.w, instance)
    ensures Steady(old(c.Now()), c.Now(), c.claimed, c.alone, {instance.uuid})
    ensures Shown(old(c.trace), c.trace, instance.uuid,
                  if r.Ok? then [STOPPED, OFFLOADING, OFFLOADED] else [STOPPED, OFFLOADING])
    ensures r.Ok? ==> c.w.entityRecords[instance.uuid] == instance.(status := OFFLOADED)
    ensures r.Ok? ==> AllOffloaded(old(c.trace), c.trace, fdus)
    ensures c.alone && r.Ok? ==> Offloaded(old(c.Now()), c.Now(), fdus)
    ensures c.alone && Unused(old(c.w), fdus) ==> r.Ok?
    ensures r.Err? ==> SomeOffloadRefused(c.origin, old(c.Now()), c.Now(), c.alone, fdus, r.error)
  {
    AnnounceStopped(c, instance);
    if c.alone && Unused(old(c.w), fdus) {
      UnusedPublished(c.origin, old(c.Now()), c.Now(), c.claimed, instance.uuid, fdus);
    }
    r := OffloadStopped(c, instance, fdus, old(c.Now()));
  }

  /** Offload the descriptors, and announce it if that succeeds. */
  method OffloadStopped(c: Cluster, instance: EntityRecord, fdus: seq<FDUDescriptor>, ghost start: History)
    returns (r: Result<()>)
    requires c.Valid() && instance.uuid in c.claimed && Publishable(c.w, instance)
    requires Steady(start, c.Now(), c.claimed, c.alone, {instance.uuid}) && (c.alone ==> Calm(start, c.Now()))
    requires Shown(start.trace, c.trace, instance.uuid, [STOPPED, OFFLOADING])
    modifies c
    ensures c.Valid() && c.claimed == old(c.claimed) && Publishable(c.w, instance)
    ensures Steady(start, c.Now(), c.claimed, c.alone, {instance.uuid})
    ensures Shown(start.trace, c.trace, instance.uuid,
                  if r.Ok? then [STOPPED, OFFLOADING, OFFLOADED] else [STOPPED, OFFLOADING])
    ensures r.Ok? ==> c.w.entityRecords[instance.uuid] == instance.(status := OFFLOADED)
    ensures r.Ok? ==> AllOffloaded(start.trace, c.trace, fdus)
    ensures c.alone && r.Ok? ==> Offloaded(start, c.Now(), fdus)
    ensures c.alone && Unused(old(c.w), fdus) ==> r.Ok?
    ensures r.Err? ==> SomeOffloadRefused(c.origin, start, c.Now(), c.alone, fdus, r.error)
  {
    var e := instance.uuid;
    ghost var h2 := c.Now();
    r := OffloadAll(c, fdus);
    ghost var h3 := c.Now();
    PublishableKept(h2, h3, c.claimed, c.alone, {}, instance);
    SteadyWiden(h2, h3, c.claimed, c.alone, {}, {e});
    SteadyAgain(start, h2, h3, c.claimed, c.claimed, c.alone, {e});
    ShownNothing(start.trace, h2.trace, h3.trace, e, [STOPPED, OFFLOADING]);
    if r.Ok? {
      StillAllOffloaded(start.trace, h2.trace, h3.trace, h3.trace, fdus);
      if c.alone { OffloadedBetween(start, h2, h3, h3, fdus); }
      AnnounceOffloaded(c, instance, fdus, start);
    } else {
      StillSomeOffloadRefused(c.origin, start, h2, h3, h3, c.alone, fdus, r.error);
    }
  }

  method AnnounceOffloaded(c: Cluster, instance: EntityRecord, ghost fdus: seq<FDUDescriptor>, ghost start: History)
    requires c.Valid() && instance.uuid in c.claimed && Publishable(c.w, instance)
    requires Steady(start, c.Now(), c.claimed, c.alone, {instance.uuid})
    requires Shown(start.trace, c.trace, instance.uuid, [STOPPED, OFFLOADING])
    requires AllOffloaded(start.trace, c.trace, fdus) && (c.alone ==> Offloaded(start, c.Now(), fdus))
    modifies c
    ensures c.Valid() && c.claimed == old(c.claimed) && Publishable(c.w, instance)
    ensures Steady(start, c.Now(), c.claimed, c.alone, {instance.uuid})
    ensures Shown(start.trace, c.trace, instance.uuid, [STOPPED, OFFLOADING, OFFLOADED])
    ensures c.w.entityRecords[instance.uuid] == instance.(status := OFFLOADED)
    ensures AllOffloaded(start.trace, c.trace, fdus) && (c.alone ==> Offloaded(start, c.Now(), fdus))
  {
    ghost var before := c.Now();
    c.Publish(instance.(status := OFFLOADED));
    SteadyAgain(start, before, c.Now(), c.claimed, c.claimed, c.alone, {instance.uuid});
    ShownTrans(start.trace, before.trace, c.trace, instance.uuid, [STOPPED, OFFLOADING], [OFFLOADED]);
    StillAllOffloaded(start.trace, start.trace, before.trace, c.trace, fdus);
    if c.alone { OffloadedCalm(start, before, c.Now(), fdus); }
  }

  lemma OffloadedBetween(h: History, h2: History, h3: History, h4: History, fdus: seq<FDUDescriptor>)
    requires Calm(h, h2) && Offloaded(h2, h3, fdus) && Calm(h3, h4)
    ensures Offloaded(h, h4, fdus)
  {
  }

  lemma AfterStop(h: History, h1: History, h2: History, claimed: set<Uuid>, alone: bool, instance: EntityRecord)
    requires Steady(h, h1, claimed, alone, SetOf(instance.fdus) + {instance.uuid})
    requires Steady(h1, h2, claimed, alone, {instance.uuid})
    requires AllErased(h1.world, instance.fdus) && AllIdle(h.world, claimed, instance.fdus)
    requires instance.uuid !in instance.fdus
    ensures Steady(h, h2, claimed, alone, SetOf(instance.fdus) + {instance.uuid}) && AllErased(h2.world, instance.fdus)
  {
    var e, ids := instance.uuid, instance.fdus;
    SteadyTrans(h, h1, h2, claimed, claimed, alone, SetOf(ids) + {e}, {e});
    SteadyWiden(h, h2, claimed, alone, SetOf(ids) + {e} + {e}, SetOf(ids) + {e});
    forall k | 0 <= k < |ids| ensures Erased(h2.world, ids[k]) {
      assert Erased(h1.world, ids[k]) && Held(h1.world, h2.world, ids[k]);
    }
  }

  /** What others leave of an entity that is about to be descheduled. */
  lemma IdleEntityWaited(h: History, h1: History, claimed: set<Uuid>, alone: bool, instance: EntityRecord)
    requires Waited(h, h1, claimed, alone) && instance.uuid in claimed && Publishable(h.world, instance)
    requires AllIdle(h.world, claimed, instance.fdus)
    ensures Publishable(h1.world, instance) && AllIdle(h1.world, claimed, instance.fdus)
    ensures Shown(h.trace, h1.trace, instance.uuid, [])
    ensures SameRecords(h.world, h1.world, instance.fdus)
  {
    PublishableKept(h, h1, claimed, alone, {}, instance);
    forall k | 0 <= k < |instance.fdus|
      ensures instance.fdus[k] !in h1.world.inflight
      ensures SameAt(h.world.records, h1.world.records, instance.fdus[k])
    {
      assert Held(h.world, h1.world, instance.fdus[k]);
    }
  }

  ghost predicate SameRecords(w: World, w': World, ids: seq<Uuid>) {
    forall k | 0 <= k < |ids| :: SameAt(w.records, w'.records, ids[k])
  }

  lemma DescheduableWaited(h: History, h1: History, claimed: set<Uuid>, instance: EntityRecord)
    requires Waited(h, h1, claimed, true) && Descheduable(h, instance)
    ensures Descheduable(h1, instance)
  {
    forall i ensures Held(h.world, h1.world, i) {
    }
    assert h1.world.inflight == map[] by {
      forall i ensures i !in h1.world.inflight { assert Held(h.world, h1.world, i); }
    }
    forall k | 0 <= k < |instance.fdus| ensures Stoppable(h1.world, instance.fdus[k]) {
      assert Held(h.world, h1.world, instance.fdus[k]);
      StoppableStays(h, h1, instance.fdus[k]);
    }
    OnlyTheseStays(h.world, h1.world, h.world.entities[instance.id].fdus, instance.fdus);
  }

  lemma OnlyTheseStays(w: World, w': World, fdus: seq<FDUDescriptor>, ids: seq<Uuid>)
    requires OnlyThese(w, fdus, ids) && w'.catalog == w.catalog && w.inflight == map[] && forall i :: Held(w, w', i)
    ensures OnlyThese(w', fdus, ids)
  {
    forall i | i in w'.records && i !in ids ensures w'.records[i].fduUuid !in Ids(fdus) {
      assert Held(w, w', i);
    }
  }

  /** entity_unscheduling on node at. On success every instance of the record is gone, the record is
      OFFLOADED and exactly STOPPING, STOPPED, OFFLOADING, OFFLOADED were published; on an error a
      proper prefix of them was, none exactly when the entity was not catalogued when it was read. It
      succeeds when the entity can be descheduled and nobody else acts, and then exactly its
      descriptors leave the catalog. */
  method EntityUnscheduling(c: Cluster, at: Uuid, instance: EntityRecord) returns (r: Result<()>, ghost read: History)
    requires c.Valid() && at in c.w.nodes && instance.uuid in c.claimed && Publishable(c.w, instance)
    requires AllIdle(c.w, c.claimed, instance.fdus) && instance.uuid !in instance.fdus
    modifies c
    ensures c.Valid() && c.claimed == old(c.claimed) && Publishable(c.w, instance)
    ensures Moment(c.origin, old(c.Now()), read, c.Now(), c.alone)
    ensures Steady(old(c.Now()), c.Now(), c.claimed, c.alone, SetOf(instance.fdus) + {instance.uuid})
    ensures r.Ok? ==>
        AllErased(c.w, instance.fdus) && c.w.entityRecords[instance.uuid] == instance.(status := OFFLOADED)
    ensures UnscheduleShown(old(c.trace), c.trace, instance, read.world.entities, r)
    ensures c.alone && r.Ok? ==>
        instance.id in old(c.w).entities && Offloaded(old(c.Now()), c.Now(), old(c.w).entities[instance.id].fdus)
    ensures c.alone && Descheduable(old(c.Now()), instance) ==> r.Ok?
    ensures r.Ok? ==>
        instance.id in read.world.entities
        && AllOffloaded(old(c.trace), c.trace, read.world.entities[instance.id].fdus)
    ensures WellFormedRun(c.trace) && r.Err? ==>
        UnscheduleRefused(c.origin, old(c.Now()), c.Now(), c.alone, instance, read.world.entities, r.error)
  {
    c.Others();
    read := c.Now();
    IdleEntityWaited(old(c.Now()), read, c.claimed, c.alone, instance);
    if c.alone && Descheduable(old(c.Now()), instance) { DescheduableWaited(old(c.Now()), read, c.claimed, instance); }
    r := UnscheduleFound(c, at, instance);
    WaitedThen(old(c.Now()), read, c.Now(), c.claimed, c.alone, SetOf(instance.fdus) + {instance.uuid});
    UnscheduleShownLater(old(c.trace), read.trace, c.trace, instance, read.world.entities, r);
    if r.Ok? {
      StillAllOffloaded(old(c.trace), read.trace, c.trace, c.trace, read.world.entities[instance.id].fdus);
    }
    if c.alone && r.Ok? { OffloadedBetween(old(c.Now()), read, c.Now(), c.Now(), old(c.w).entities[instance.id].fdus); }
    if r.Err? && WellFormedRun(c.trace) {
      StillUnscheduleRefused(c.origin, old(c.Now()), read, c.Now(), c.Now(), c.alone, instance, read.world.entities,
                             r.error);
    }
  }

  /** Why the job that finds these entities fails: the entity is missing, an instance could not be erased,
      or a descriptor not offloaded. */
  ghost predicate UnscheduleRefused(origin: World, h: History, h': History, alone: bool, instance: EntityRecord,
                                    entities: map<Uuid, EntityDescriptor>, error: FError) {
    if instance.id !in entities then error == NotFound
    else
      || SomeStopRefused(origin, h, h', alone, instance.fdus, error)
      || SomeOffloadRefused(origin, h, h', alone, entities[instance.id].fdus, error)
  }

  lemma StillUnscheduleRefused(origin: World, h: History, h1: History, h2: History, h': History, alone: bool,
                               instance: EntityRecord, entities: map<Uuid, EntityDescriptor>, error: FError)
    requires UnscheduleRefused(origin, h1, h2, alone, instance, entities, error)
    requires h.trace <= h1.trace && h2.trace <= h'.trace
    requires SameSetup(h2.world, h'.world) && (alone ==> h'.world.catalog == h2.world.catalog)
    requires SameRecords(h.world, h1.world, instance.fdus)
    ensures UnscheduleRefused(origin, h, h', alone, instance, entities, error)
  {
    if instance.id in entities {
      if SomeStopRefused(origin, h1, h2, alone, instance.fdus, error) {
        StillSomeStopRefused(origin, h, h1, h2, h', alone, instance.fdus, error);
      } else {
        StillSomeOffloadRefused(origin, h, h1, h2, h', alone, entities[instance.id].fdus, error);
      }
    }
  }

  /** The statuses that were published on the way, given the entities that the job found. */
  ghost predicate UnscheduleShown(t: seq<Label>, t': seq<Label>, instance: EntityRecord,
                                  entities: map<Uuid, EntityDescriptor>, r: Result<()>) {
    if r.Ok? then instance.id in entities && Shown(t, t', instance.uuid, [STOPPING, STOPPED, OFFLOADING, OFFLOADED])
    else if instance.id !in entities then r.error == NotFound && Shown(t, t', instance.uuid, [])
    else Shown(t, t', instance.uuid, [STOPPING]) || Shown(t, t', instance.uuid, [STOPPING, STOPPED, OFFLOADING])
  }

  lemma UnscheduleShownLater(t: seq<Label>, t1: seq<Label>, t2: seq<Label>, instance: EntityRecord,
                             entities: map<Uuid, EntityDescriptor>, r: Result<()>)
    requires Shown(t, t1, instance.uuid, []) && UnscheduleShown(t1, t2, instance, entities, r)
    ensures UnscheduleShown(t, t2, instance, entities, r)
  {
    assert Statuses(t1, instance.uuid) == Statuses(t, instance.uuid);
  }

  /** The job after it has read the entity. */
  method UnscheduleFound(c: Cluster, at: Uuid, instance: EntityRecord) returns (r: Result<()>)
    requires c.Valid() && at in c.w.nodes && instance.uuid in c.claimed && Publishable(c.w, instance)
    requires AllIdle(c.w, c.claimed, instance.fdus) && instance.uuid !in instance.fdus
    modifies c
    ensures c.Valid() && c.claimed == old(c.claimed) && Publishable(c.w, instance)
    ensures Steady(old(c.Now()), c.Now(), c.claimed, c.alone, SetOf(instance.fdus) + {instance.uuid})
    ensures r.Ok? ==>
        AllErased(c.w, instance.fdus) && c.w.entityRecords[instance.uuid] == instance.(status := OFFLOADED)
    ensures UnscheduleShown(old(c.trace), c.trace, instance, old(c.w).entities, r)
    ensures c.alone && r.Ok? ==>
        instance.id in old(c.w).entities && Offloaded(old(c.Now()), c.Now(), old(c.w).entities[instance.id].fdus)
    ensures c.alone && Descheduable(old(c.Now()), instance) ==> r.Ok?
    ensures r.Ok? ==>
        instance.id in old(c.w).entities
        && AllOffloaded(old(c.trace), c.trace, old(c.w).entities[instance.id].fdus)
    ensures WellFormedRun(c.trace) && r.Err? ==>
        UnscheduleRefused(c.origin, old(c.Now()), c.Now(), c.alone, instance, old(c.w).entities, r.error)
  {
    SteadyRefl(c.Now(), c.claimed, c.alone, SetOf(instance.fdus) + {instance.uuid});
    if instance.id !in c.w.entities {
      return Err(NotFound);
    }
    var fdus := c.w.entities[instance.id].fdus;
    var stopped := StopInstances(c, at, instance);
    ghost var h1 := c.Now();
    if stopped.Err? {
      return stopped;
    }
    if c.alone && Descheduable(old(c.Now()), instance) {
      UnusedAfterStop(c.origin, old(c.Now()), h1, c.claimed, instance.uuid, instance.fdus, fdus);
    }
    r := UnscheduleStopped(c, instance, fdus, old(c.Now()));
  }

  /** The job after it has erased the instances. */
  method UnscheduleStopped(c: Cluster, instance: EntityRecord, fdus: seq<FDUDescriptor>, ghost start: History)
    returns (r: Result<()>)
    requires c.Valid() && instance.uuid in c.claimed && Publishable(c.w, instance)
    requires AllIdle(start.world, c.claimed, instance.fdus) && instance.uuid !in instance.fdus
    requires Steady(start, c.Now(), c.claimed, c.alone, SetOf(instance.fdus) + {instance.uuid})
    requires Shown(start.trace, c.trace, instance.uuid, [STOPPING]) && AllErased(c.w, instance.fdus)
    requires c.alone ==> Calm(start, c.Now())
    modifies c
    ensures c.Valid() && c.claimed == old(c.claimed) && Publishable(c.w, instance)
    ensures Steady(start, c.Now(), c.claimed, c.alone, SetOf(instance.fdus) + {instance.uuid})
    ensures AllErased(c.w, instance.fdus)
    ensures r.Ok? ==> c.w.entityRecords[instance.uuid] == instance.(status := OFFLOADED)
    ensures Shown(start.trace, c.trace, instance.uuid,
                  if r.Ok? then [STOPPING, STOPPED, OFFLOADING, OFFLOADED] else [STOPPING, STOPPED, OFFLOADING])
    ensures r.Ok? ==> AllOffloaded(start.trace, c.trace, fdus)
    ensures c.alone && r.Ok? ==> Offloaded(start, c.Now(), fdus)
    ensures c.alone && Unused(old(c.w), fdus) ==> r.Ok?
    ensures r.Err? ==> SomeOffloadRefused(c.origin, start, c.Now(), c.alone, fdus, r.error)
  {
    ghost var h1 := c.Now();
    r := RemoveDescriptors(c, instance, fdus);
    AfterStop(start, h1, c.Now(), c.claimed, c.alone, instance);
    ShownAfterStop(start.trace, h1.trace, c.trace, instance.uuid, r);
    if r.Err? {
      StillSomeOffloadRefused(c.origin, start, h1, c.Now(), c.Now(), c.alone, fdus, r.error);
    } else {
      StillAllOffloaded(start.trace, h1.trace, c.trace, c.trace, fdus);
    }
    if c.alone && r.Ok? { OffloadedBetween(start, h1, c.Now(), c.Now(), fdus); }
  }

  lemma ShownAfterStop(t: seq<Label>, t1: seq<Label>, t2: seq<Label>, e: Uuid, r: Result<()>)
    requires Shown(t, t1, e, [STOPPING])
    requires Shown(t1, t2, e, if r.Ok? then [STOPPED, OFFLOADING, OFFLOADED] else [STOPPED, OFFLOADING])
    ensures Shown(t, t2, e,
                  if r.Ok? then [STOPPING, STOPPED, OFFLOADING, OFFLOADED] else [STOPPING, STOPPED, OFFLOADING])
  {
    ShownTrans(t, t1, t2, e, [STOPPING], if r.Ok? then [STOPPED, OFFLOADING, OFFLOADED] else [STOPPED, OFFLOADING]);
  }

  /** How the job that deschedule_entity spawns left the record it was given; read is when it read the
      entity. Where no descriptor is ill-formed the cause of an error is why it was refused. */
  ghost predicate DescheduleEnded(origin: World, h: History, read: History, h': History, alone: bool,
                                  instance: EntityRecord) {
    && Moment(origin, h, read, h', alone)
    && instance.uuid in h'.world.entityRecords
    && var rec := h'.world.entityRecords[instance.uuid];
    match rec.status
    case OFFLOADED =>
      && rec == instance.(status := OFFLOADED) && AllErased(h'.world, instance.fdus)
      && instance.id in read.world.entities
      && AllOffloaded(h.trace, h'.trace, read.world.entities[instance.id].fdus)
      && Shown(h.trace, h'.trace, instance.uuid, [STOPPING, STOPPED, OFFLOADING, OFFLOADED])
    case ERROR_ENTITY(cause) =>
      && rec == instance.(status := ERROR_ENTITY(cause))
      && (WellFormedRun(h'.trace) ==>
            UnscheduleRefused(origin, h, h', alone, instance, read.world.entities, cause))
      && exists shown :: shown < [STOPPING, STOPPED, OFFLOADING, OFFLOADED]
           && Shown(h.trace, h'.trace, instance.uuid, shown + [ERROR_ENTITY(cause)])
    case _ => false
  }

  lemma DescheduleFailed(origin: World, h: History, read: History, h1: History, h': History, alone: bool,
                         instance: EntityRecord, cause: FError, shown: seq<EntityStatus>)
    requires Moment(origin, h, read, h1, alone) && h1.trace <= h'.trace && SameSetup(h1.world, h'.world)
    requires alone ==> Calm(h1, h')
    requires WellFormedRun(h1.trace) ==>
        UnscheduleRefused(origin, h, h1, alone, instance, read.world.entities, cause)
    requires shown < [STOPPING, STOPPED, OFFLOADING, OFFLOADED]
    requires Shown(h.trace, h1.trace, instance.uuid, shown)
    requires Shown(h1.trace, h'.trace, instance.uuid, [ERROR_ENTITY(cause)])
    requires instance.uuid in h'.world.entityRecords
    requires h'.world.entityRecords[instance.uuid] == instance.(status := ERROR_ENTITY(cause))
    ensures DescheduleEnded(origin, h, read, h', alone, instance)
  {
    if WellFormedRun(h'.trace) {
      WellFormedBefore(h1.trace, h'.trace);
      StillUnscheduleRefused(origin, h, h, h1, h', alone, instance, read.world.entities, cause);
    }
    ShownTrans(h.trace, h1.trace, h'.trace, instance.uuid, shown, [ERROR_ENTITY(cause)]);
  }

  /** deschedule_entity on node at, with its job run to the end. It fails exactly when there is no
      such record; otherwise the record ends OFFLOADED with its instances gone, or in ERROR. */
  method DescheduleEntity(c: Cluster, at: Uuid, e: Uuid) returns (r: Result<Uuid>, ghost read: History)
    requires c.Valid() && at in c.w.nodes && e in c.claimed
    requires e in c.w.entityRecords ==>
        AllIdle(c.w, c.claimed, c.w.entityRecords[e].fdus) && e !in c.w.entityRecords[e].fdus
    modifies c
    ensures c.Valid() && c.claimed == old(c.claimed)
    ensures r == if e in old(c.w).entityRecords then Ok(e) else Err(NotFound)
    ensures r.Err? ==> c.Now() == old(c.Now())
    ensures r.Ok? ==>
        DescheduleEnded(c.origin, old(c.Now()), read, c.Now(), c.alone, old(c.w).entityRecords[e])
    ensures r.Ok? ==> Steady(old(c.Now()), c.Now(), c.claimed, c.alone, SetOf(old(c.w).entityRecords[e].fdus) + {e})
    ensures c.alone && r.Ok? && Descheduable(old(c.Now()), old(c.w).entityRecords[e]) ==>
      && e in c.w.entityRecords && c.w.entityRecords[e].status == OFFLOADED
      && old(c.w).entityRecords[e].id in old(c.w).entities
      && Offloaded(old(c.Now()), c.Now(), old(c.w).entities[old(c.w).entityRecords[e].id].fdus)
  {
    read := c.Now();
    if e !in c.w.entityRecords {
      return Err(NotFound), read;
    }
    var instance := c.w.entityRecords[e];
    StoredRecord(c.origin, c.Now(), e);
    var done;
    done, read := EntityUnscheduling(c, at, instance);
    if done.Err? {
      ghost var h1 := c.Now();
      c.Publish(instance.(status := ERROR_ENTITY(done.error)));
      SteadyTrans(old(c.Now()), h1, c.Now(), c.claimed, c.claimed, c.alone, SetOf(instance.fdus) + {e}, {e});
      SteadyWiden(old(c.Now()), c.Now(), c.claimed, c.alone, SetOf(instance.fdus) + {e} + {e},
                  SetOf(instance.fdus) + {e});
      ghost var shown := if Shown(old(c.trace), h1.trace, e, []) then []
                         else if Shown(old(c.trace), h1.trace, e, [STOPPING]) then [STOPPING]
                         else [STOPPING, STOPPED, OFFLOADING];
      DescheduleFailed(c.origin, old(c.Now()), read, h1, c.Now(), c.alone, instance, done.error, shown);
    }
    r := Ok(e);
  }

  lemma StoredRecord(origin: World, h: History, e: Uuid)
    requires Reached(origin, h.trace, h.world) && e in h.world.entityRecords
    ensures h.world.entityRecords[e].uuid == e
  {
    ReachedFacts(origin, h.trace, h.world);
  }
}
