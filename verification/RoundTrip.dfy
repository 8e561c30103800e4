/** Scheduling and then descheduling an entity, when nobody else acts, gives back every node. */
module RoundTrip {
  import opened Model
  import opened Protocol
  import opened Runs
  import opened Resources
  import opened Restoration
  import opened Calls
  import opened AgentSteps
  import opened Agent
  import opened Entities
  import opened Descheduling

  /** The two stores of the node, and the plugin's cache, are the same. */
  ghost predicate NodeRestored(w: World, w': World, n: Uuid) {
    && n in w.nodes && n in w'.nodes
    && w'.nodes[n].local == w.nodes[n].local && w'.nodes[n].cache == w.nodes[n].cache
       && w'.nodes[n].net == w.nodes[n].net
  }

  /** A stretch of a run in which plugin calls went to new instances only, none of which is left. */
  lemma StretchRestores(origin: World, h: History, h': History, claimed: set<Uuid>, own: set<Uuid>, n: Uuid)
    requires Reached(origin, h.trace, h.world) && Reached(origin, h'.trace, h'.world) && WellFormedRun(h'.trace)
    requires Steady(h, h', claimed, true, own) && own !! h.world.issued && n in h.world.nodes
    requires forall i | i in own :: i !in h'.world.nodes[n].local
    ensures NodeRestored(h.world, h'.world, n)
  {
    var ls := Between(origin, h, h');
    ReachedFacts(origin, h.trace, h.world);
    WellFormedBefore(h.trace, h'.trace);
    ReachedConserved(origin, h.trace, h.world);
    assert WellFormedRun(ls) by {
      forall l | l in ls ensures WellFormedLabel(l) { assert l in h'.trace; }
    }
    forall j | j in h.world.nodes[n].local ensures RunSpares(ls, j) {
      assert Tidy(h.world.nodes[n], n, h.world.issued) && TidyRecord(h.world.nodes[n].local[j], j, n, h.world.issued);
      OwnCallsSpare(h.trace, ls, own, j);
    }
    forall j | j in h'.world.nodes[n].local ensures j in h.world.nodes[n].local {
      assert Held(h.world, h'.world, j);
    }
    RunRestores(h.world, ls, n);
  }

  lemma OwnCallsSpare(t: seq<Label>, ls: seq<Label>, own: set<Uuid>, j: Uuid)
    requires OwnCalls(t, t + ls, own) && j !in own
    ensures RunSpares(ls, j)
  {
    forall l | l in ls ensures Spares(l, j) {
      var k :| 0 <= k < |ls| && ls[k] == l;
      assert (t + ls)[|t| + k] == l;
    }
  }

  /** An entity of well-formed FDUs with distinct UUIDs and no instances, in a quiet system. */
  ghost predicate Unscheduled(w: World, entity: Uuid) {
    && w.inflight == map[] && entity in w.entities
    && var fdus := w.entities[entity].fdus;
    && AllWellFormed(fdus)
    && (forall j, k | 0 <= j < k < |fdus| :: fdus[j].uuid != fdus[k].uuid)
    && (forall i | i in w.records :: w.records[i].fduUuid !in Ids(fdus))
  }

  /** A scheduled entity can be descheduled. */
  lemma ScheduledIsDescheduable(origin: World, h: History, h': History, claimed: set<Uuid>, e: Uuid, entity: Uuid,
                                made: set<Uuid>, ids: seq<Uuid>)
    requires Unscheduled(h.world, entity) && WellFormedRun(h.trace) && Reached(origin, h'.trace, h'.world)
    requires Reached(origin, h.trace, h.world)
    requires Steady(h, h', claimed, true, made + {e}) && AloneStarted(h, h', made, ids, h.world.entities[entity].fdus)
    requires ScheduleEnded(h, h', e, entity, ids, h.world.entities[entity].fdus)
    requires h'.world.entityRecords[e].status == RUNNING_ENTITY
    ensures Descheduable(h', h'.world.entityRecords[e])
  {
    var fdus := h.world.entities[entity].fdus;
    ReachedFilled(origin, h);
    ReachedIdsApart(origin, h'.trace, h'.world);
    StartedStoppable(h'.world, ids, fdus);
    forall i
      ensures i !in h'.world.inflight
      ensures i in h'.world.records && i !in ids ==> h'.world.records[i].fduUuid !in Ids(fdus)
    {
      NoOtherInstances(h, h', claimed, e, ids, Ids(fdus), i);
    }
    assert h'.world.inflight == map[];
  }

  lemma NoOtherInstances(h: History, h': History, claimed: set<Uuid>, e: Uuid, ids: seq<Uuid>, fduIds: set<Uuid>,
                         i: Uuid)
    requires Steady(h, h', claimed, true, SetOf(ids) + {e}) && h.world.inflight == map[]
    requires forall j | j in h.world.records :: h.world.records[j].fduUuid !in fduIds
    requires AllStoppable(h'.world, ids) && e !in h'.world.inflight && e !in h'.world.records
    ensures i !in h'.world.inflight && (i in h'.world.records && i !in ids ==> h'.world.records[i].fduUuid !in fduIds)
  {
    if i in ids {
      var k :| 0 <= k < |ids| && ids[k] == i;
      assert Stoppable(h'.world, ids[k]);
    } else if i != e {
      assert Held(h.world, h'.world, i);
    }
  }

  lemma StartedStoppable(w: World, ids: seq<Uuid>, fdus: seq<FDUDescriptor>)
    requires AllRunning(w, ids, fdus) && forall k | 0 <= k < |ids| :: Operable(w, ids[k])
    ensures AllStoppable(w, ids)
  {
    forall k | 0 <= k < |ids| ensures Stoppable(w, ids[k]) {
      assert RunningAs(w, ids[k], fdus[k]) && Operable(w, ids[k]);
    }
  }

  /** What the round trip leaves of the whole system. */
  ghost predicate Undone(w: World, w': World, e: Uuid, entity: Uuid)
    requires entity in w.entities
  {
    && (forall n | n in w.nodes :: NodeRestored(w, w', n))
    && w'.records == w.records && w'.inflight == w.inflight
    && w'.catalog == w.catalog - Ids(w.entities[entity].fdus) && w'.entities == w.entities
    && e in w'.entityRecords && w'.entityRecords[e].status == OFFLOADED
    && forall k | k in w.entityRecords :: k in w'.entityRecords && w'.entityRecords[k] == w.entityRecords[k]
  }

  lemma NodesUndone(origin: World, h: History, h': History, claimed: set<Uuid>, e: Uuid, ids: seq<Uuid>)
    requires Reached(origin, h.trace, h.world) && Reached(origin, h'.trace, h'.world) && WellFormedRun(h'.trace)
    requires Steady(h, h', claimed, true, SetOf(ids) + {e}) && SetOf(ids) + {e} !! h.world.issued
    requires AllErased(h'.world, ids) && e in h'.world.entityRecords
    ensures forall n | n in h.world.nodes :: NodeRestored(h.world, h'.world, n)
  {
    ReachedIdsApart(origin, h'.trace, h'.world);
    forall n | n in h.world.nodes ensures NodeRestored(h.world, h'.world, n) {
      forall i | i in SetOf(ids) + {e} ensures i !in h'.world.nodes[n].local {
        if i in ids {
          var k :| 0 <= k < |ids| && ids[k] == i;
          assert Erased(h'.world, ids[k]);
          ErasedGone(origin, h', i);
          assert AbsentAt(h'.world.nodes[n], i);
        }
      }
      StretchRestores(origin, h, h', claimed, SetOf(ids) + {e}, n);
    }
  }

  /** A UUID that was not drawn before names nothing. */
  lemma NewNamesNothing(origin: World, h: History, i: Uuid)
    requires Reached(origin, h.trace, h.world) && i !in h.world.issued
    ensures i !in h.world.records && i !in h.world.inflight && i !in h.world.entityRecords
  {
    ReachedFacts(origin, h.trace, h.world);
    ReachedIdsApart(origin, h.trace, h.world);
    UndrawnUnknown(h.world, i);
  }

  lemma RecordUndone(origin: World, h: History, h': History, claimed: set<Uuid>, e: Uuid, ids: seq<Uuid>, i: Uuid)
    requires Reached(origin, h.trace, h.world) && Reached(origin, h'.trace, h'.world)
    requires Steady(h, h', claimed, true, SetOf(ids) + {e}) && SetOf(ids) + {e} !! h.world.issued
    requires AllErased(h'.world, ids) && e in h'.world.entityRecords && h.world.inflight == map[]
    ensures SameAt(h.world.records, h'.world.records, i) && i !in h'.world.inflight
    ensures i in h.world.entityRecords ==> SameAt(h.world.entityRecords, h'.world.entityRecords, i)
  {
    if i in SetOf(ids) + {e} {
      NewNamesNothing(origin, h, i);
      ErasedOrRecord(origin, h', e, ids, i);
    } else {
      assert Held(h.world, h'.world, i);
    }
  }

  lemma ErasedOrRecord(origin: World, h': History, e: Uuid, ids: seq<Uuid>, i: Uuid)
    requires Reached(origin, h'.trace, h'.world) && AllErased(h'.world, ids) && e in h'.world.entityRecords
    requires i in SetOf(ids) + {e}
    ensures i !in h'.world.records && i !in h'.world.inflight
  {
    ReachedIdsApart(origin, h'.trace, h'.world);
    if i in ids {
      var k :| 0 <= k < |ids| && ids[k] == i;
      assert Erased(h'.world, ids[k]);
    }
  }

  lemma SameEverywhere<K(!new), V>(m: map<K, V>, m': map<K, V>)
    requires forall k :: SameAt(m, m', k)
    ensures m == m'
  {
    forall k ensures k in m <==> k in m' {
      assert SameAt(m, m', k);
    }
    forall k | k in m ensures m'[k] == m[k] {
      assert SameAt(m, m', k);
    }
  }

  lemma RecordsUndone(origin: World, h: History, h': History, claimed: set<Uuid>, e: Uuid, ids: seq<Uuid>)
    requires Reached(origin, h.trace, h.world) && Reached(origin, h'.trace, h'.world)
    requires Steady(h, h', claimed, true, SetOf(ids) + {e}) && SetOf(ids) + {e} !! h.world.issued
    requires AllErased(h'.world, ids) && e in h'.world.entityRecords && h.world.inflight == map[]
    ensures h'.world.records == h.world.records && h'.world.inflight == h.world.inflight
    ensures forall k | k in h.world.entityRecords ::
        k in h'.world.entityRecords && h'.world.entityRecords[k] == h.world.entityRecords[k]
  {
    forall i
      ensures SameAt(h.world.records, h'.world.records, i) && i !in h'.world.inflight
      ensures i in h.world.entityRecords ==> SameAt(h.world.entityRecords, h'.world.entityRecords, i)
    {
      RecordUndone(origin, h, h', claimed, e, ids, i);
    }
    SameEverywhere(h.world.records, h'.world.records);
    assert h'.world.inflight == map[];
  }

  /** The two halves put together. */
  lemma HalvesUndo(origin: World, h: History, h1: History, h2: History, claimed: set<Uuid>, claimed1: set<Uuid>,
                   e: Uuid, entity: Uuid, ids: seq<Uuid>)
    requires Reached(origin, h.trace, h.world) && Reached(origin, h2.trace, h2.world) && WellFormedRun(h2.trace)
    requires Steady(h, h1, claimed, true, SetOf(ids) + {e}) && Steady(h1, h2, claimed1, true, SetOf(ids) + {e})
    requires claimed <= claimed1
    requires SetOf(ids) + {e} !! h.world.issued && h.world.inflight == map[] && entity in h.world.entities
    requires AllErased(h2.world, ids) && e in h2.world.entityRecords && h2.world.entityRecords[e].status == OFFLOADED
    requires Onboarded(h, h1, h.world.entities[entity].fdus) && Offloaded(h1, h2, h.world.entities[entity].fdus)
    ensures Undone(h.world, h2.world, e, entity)
  {
    ReachedFilled(origin, h);
    SteadyAgain(h, h1, h2, claimed, claimed1, true, SetOf(ids) + {e});
    NodesUndone(origin, h, h2, claimed, e, ids);
    RecordsUndone(origin, h, h2, claimed, e, ids);
    CatalogUndone(h.world.catalog, h1.world.catalog, h2.world.catalog, h.world.entities[entity].fdus);
  }

  lemma CatalogUndone(catalog: map<Uuid, FDUDescriptor>, catalog1: map<Uuid, FDUDescriptor>,
                      catalog2: map<Uuid, FDUDescriptor>, fdus: seq<FDUDescriptor>)
    requires Catalogued(catalog, catalog1, fdus) && catalog2 == catalog1 - Ids(fdus)
    ensures catalog2 == catalog - Ids(fdus)
  {
    forall f ensures SameAt(catalog2, catalog - Ids(fdus), f) {
      if f !in Ids(fdus) { assert SameAt(catalog, catalog1, f); }
    }
    SameEverywhere(catalog2, catalog - Ids(fdus));
  }

  /** The new record e ended in ERROR without a stop being announced: the FDUs before the failing one
      run, and that one was refused, for want of a node that accepts it or because a drawn UUID was in
      use. */
  ghost predicate ScheduleFailed(origin: World, random: Random, h: History, h': History, e: Uuid, entity: Uuid,
                                 ids: seq<Uuid>) {
    && entity in h.world.entities && e !in h.world.issued
    && ScheduleEnded(h, h', e, entity, ids, h.world.entities[entity].fdus)
    && h'.world.entityRecords[e].status.ERROR_ENTITY?
    && CauseKnown(origin, random, h, h', true, e, ids, h.world.entities[entity].fdus)
  }

  /** Nothing was touched, since the UUID drawn for the record was in use. */
  ghost predicate NotStored(origin: World, random: Random, h: History, h': History, claimed: set<Uuid>) {
    && Steady(h, h', claimed, true, {}) && Calm(h, h')
    && exists m :: Moment(origin, h, m, h', true) && random.uuid(m.world.issued) in m.world.issued
  }

  /** Schedule an entity and, when that succeeds, deschedule it: every node's instance store, plugin
      cache and network store are what they were, so are the global records, exactly the entity's
      descriptors have left the catalog, and the entity record is OFFLOADED. It is an error only when
      scheduling failed, and then nothing was descheduled: either the record's UUID was in use and
      nothing was touched, or an FDU was refused. It succeeds if for each FDU a node accepts it and the
      draws are free. */
  method ScheduleThenDeschedule(c: Cluster, at: Uuid, entity: Uuid) returns (r: Result<Uuid>)
    requires c.Valid() && at in c.w.nodes && c.alone && WellFormedRun(c.trace) && Unscheduled(c.w, entity)
    modifies c
    ensures c.Valid()
    ensures r.Ok? ==> Undone(old(c.w), c.w, r.value, entity)
    ensures r.Ok? ==>
        Shown(old(c.trace), c.trace, r.value,
              [ONBOARDING, ONBOARDED, STARTING, RUNNING_ENTITY, STOPPING, STOPPED, OFFLOADING, OFFLOADED])
    ensures r.Err? ==>
      || (r.error == COLLISION && NotStored(c.origin, c.random, old(c.Now()), c.Now(), old(c.claimed)))
      || exists e, ids :: ScheduleFailed(c.origin, c.random, old(c.Now()), c.Now(), e, entity, ids)
    ensures var fdus := old(c.w).entities[entity].fdus;
      Schedulable(old(c.w), fdus) && FreeDraws(c.random, old(c.w.issued), c.w.issued, fdus) ==> r.Ok?
  {
    var scheduled;
    ghost var ids, made, drawn;
    scheduled, ids, made, drawn := ScheduleEntity(c, at, entity);
    if scheduled.Err? {
      return scheduled;
    }
    var e := scheduled.value;
    if c.w.entityRecords[e].status != RUNNING_ENTITY {
      assert ScheduleFailed(c.origin, c.random, old(c.Now()), c.Now(), e, entity, ids);
      return Err(UnknownError("not started"));
    }
    r := UndoSchedule(c, at, entity, e, ids, made, old(c.Now()), old(c.claimed));
  }

  /** Deschedule what was scheduled since start. */
  method UndoSchedule(c: Cluster, at: Uuid, entity: Uuid, e: Uuid, ghost ids: seq<Uuid>, ghost made: set<Uuid>,
                      ghost start: History, ghost claimed: set<Uuid>)
    returns (r: Result<Uuid>)
    requires c.Valid() && at in c.w.nodes && c.alone && Reached(c.origin, start.trace, start.world)
    requires WellFormedRun(start.trace) && Unscheduled(start.world, entity)
    requires Steady(start, c.Now(), claimed, true, made + {e}) && made + {e} !! start.world.issued && e !in made
    requires claimed + made + {e} <= c.claimed
    requires AloneStarted(start, c.Now(), made, ids, start.world.entities[entity].fdus)
    requires ScheduleEnded(start, c.Now(), e, entity, ids, start.world.entities[entity].fdus)
    requires c.w.entityRecords[e].status == RUNNING_ENTITY
    modifies c
    ensures c.Valid() && r == Ok(e) && Undone(start.world, c.w, e, entity)
    ensures Shown(start.trace, c.trace, e,
                  [ONBOARDING, ONBOARDED, STARTING, RUNNING_ENTITY, STOPPING, STOPPED, OFFLOADING, OFFLOADED])
    ensures old(c.w.issued) <= c.w.issued
  {
    ghost var h1 := c.Now();
    ScheduledIsDescheduable(c.origin, start, h1, claimed, e, entity, made, ids);
    IdleAfterStart(h1, c.claimed, made, ids);
    ghost var read;
    r, read := DescheduleEntity(c, at, e);
    HalvesUndo(c.origin, start, h1, c.Now(), claimed, c.claimed, e, entity, ids);
    ShownBoth(start.trace, h1.trace, c.trace, e);
  }

  lemma ShownBoth(t: seq<Label>, t1: seq<Label>, t2: seq<Label>, e: Uuid)
    requires Shown(t, t1, e, [ONBOARDING, ONBOARDED, STARTING, RUNNING_ENTITY])
    requires Shown(t1, t2, e, [STOPPING, STOPPED, OFFLOADING, OFFLOADED])
    ensures Shown(t, t2, e, [ONBOARDING, ONBOARDED, STARTING, RUNNING_ENTITY, STOPPING, STOPPED, OFFLOADING, OFFLOADED])
  {
    var all := [ONBOARDING, ONBOARDED, STARTING, RUNNING_ENTITY] + [STOPPING, STOPPED, OFFLOADING, OFFLOADED];
    ShownTrans(t, t1, t2, e, [ONBOARDING, ONBOARDED, STARTING, RUNNING_ENTITY],
               [STOPPING, STOPPED, OFFLOADING, OFFLOADED]);
    assert all == [ONBOARDING, ONBOARDED, STARTING, RUNNING_ENTITY, STOPPING, STOPPED, OFFLOADING, OFFLOADED];
  }

  lemma IdleAfterStart(h1: History, claimed: set<Uuid>, made: set<Uuid>, ids: seq<Uuid>)
    requires made <= claimed && made == SetOf(ids) && AllStoppable(h1.world, ids)
    ensures AllIdle(h1.world, claimed, ids) && made == SetOf(ids)
  {
    forall k | 0 <= k < |ids| ensures ids[k] in claimed && ids[k] !in h1.world.inflight {
      assert Stoppable(h1.world, ids[k]);
    }
  }
}
