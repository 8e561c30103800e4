/** The entity jobs: scheduling an entity onboards and starts its FDUs one after another, and
    descheduling undoes it. */
module Entities {
  import opened Model
  import opened Hypervisor
  import opened Protocol
  import opened Resources
  import opened Calls
  import opened AgentSteps
  import opened Agent

  function SetOf(ids: seq<Uuid>): set<Uuid> {
    set i | i in ids
  }

  ghost predicate AllFilled(fdus: seq<FDUDescriptor>) {
    forall k | 0 <= k < |fdus| :: fdus[k].uuid.Some?
  }

  ghost predicate AllWellFormed(fdus: seq<FDUDescriptor>) {
    forall k | 0 <= k < |fdus| :: WellFormedDescriptor(fdus[k])
  }

  // ---------------------------------------------------------------- onboarding

  /** The k-th FDU is catalogued, as it is. */
  ghost predicate CataloguedAs(catalog: map<Uuid, FDUDescriptor>, fdu: FDUDescriptor) {
    fdu.uuid.Some? && fdu.uuid.value in catalog && catalog[fdu.uuid.value] == fdu
  }

  /** No later FDU has the UUID of the k-th one. */
  ghost predicate LastOfId(fdus: seq<FDUDescriptor>, k: nat)
    requires k < |fdus|
  {
    forall j | k < j < |fdus| :: fdus[j].uuid != fdus[k].uuid
  }

  /** The catalog with these FDUs onboarded: all are there, the last one of each UUID as it is, and
      nothing else changed. */
  ghost predicate Catalogued(catalog: map<Uuid, FDUDescriptor>, catalog': map<Uuid, FDUDescriptor>,
                             fdus: seq<FDUDescriptor>) {
    && AllFilled(fdus)
    && (forall f | f in Ids(fdus) :: f in catalog')
    && (forall k | 0 <= k < |fdus| && LastOfId(fdus, k) :: CataloguedAs(catalog', fdus[k]))
    && (forall f | f !in Ids(fdus) :: SameAt(catalog, catalog', f))
  }

  /** When nobody else acts: what onboarding FDUs leaves. */
  ghost predicate Onboarded(h: History, h': History, fdus: seq<FDUDescriptor>) {
    && h'.world.entities == h.world.entities
    && (AllFilled(fdus) ==> Catalogued(h.world.catalog, h'.world.catalog, fdus))
    && (WellFormedRun(h.trace) && AllWellFormed(fdus) ==> WellFormedRun(h'.trace))
  }

  lemma OnboardedMore(h: History, h1: History, h2: History, fdus: seq<FDUDescriptor>, fdu: FDUDescriptor, id: Uuid)
    requires Onboarded(h, h1, fdus)
    requires h2.world.entities == h1.world.entities
    requires fdu.uuid.Some? ==> fdu.uuid.value == id
    requires h2.world.catalog == h1.world.catalog[id := fdu.(uuid := Some(id))]
    requires h2.trace == h1.trace + [Onboard(fdu.(uuid := Some(id)))]
    ensures Onboarded(h, h2, fdus + [fdu])
  {
    var more := fdus + [fdu];
    assert forall k | 0 <= k < |fdus| :: more[k] == fdus[k];
    assert more[|fdus|] == fdu;
    if AllFilled(more) {
      IdsAppend(fdus, fdu);
      assert AllFilled(fdus);
      forall k | 0 <= k < |more| && LastOfId(more, k) ensures CataloguedAs(h2.world.catalog, more[k]) {
        if k < |fdus| {
          assert more[|fdus|].uuid != more[k].uuid;
          LastBefore(fdus, fdu, k);
        }
      }
    }
    if AllWellFormed(more) { assert AllWellFormed(fdus); }
  }

  lemma LastBefore(fdus: seq<FDUDescriptor>, fdu: FDUDescriptor, k: nat)
    requires k < |fdus| && LastOfId(fdus + [fdu], k)
    ensures LastOfId(fdus, k)
  {
    forall j | k < j < |fdus| ensures fdus[j].uuid != fdus[k].uuid {
      assert (fdus + [fdu])[j].uuid != (fdus + [fdu])[k].uuid;
    }
  }

  lemma OnboardedCalm(h: History, h1: History, h2: History, fdus: seq<FDUDescriptor>)
    requires Onboarded(h, h1, fdus) && Calm(h1, h2)
    ensures Onboarded(h, h2, fdus)
  {
  }

  /** From t to t' every FDU with a UUID was onboarded. */
  ghost predicate AllOnboarded(t: seq<Label>, t': seq<Label>, fdus: seq<FDUDescriptor>) {
    forall k | 0 <= k < |fdus| && fdus[k].uuid.Some? :: Did(t, t', Onboard(fdus[k]))
  }

  lemma OnboardedFirst(t: seq<Label>, t1: seq<Label>, t2: seq<Label>, t': seq<Label>, fdus: seq<FDUDescriptor>)
    requires AllOnboarded(t1, t2, fdus) && t <= t1 && t2 <= t'
    ensures AllOnboarded(t, t', fdus)
  {
    forall k | 0 <= k < |fdus| && fdus[k].uuid.Some? ensures Did(t, t', Onboard(fdus[k])) {
      StillDid(t, t1, t2, t', Onboard(fdus[k]));
    }
  }

  lemma OneOnboarded(t: seq<Label>, t1: seq<Label>, t2: seq<Label>, t3: seq<Label>, fdus: seq<FDUDescriptor>, k: nat,
                     id: Uuid)
    requires k < |fdus| && AllOnboarded(t, t1, fdus[..k]) && t <= t1 <= t2
    requires t3 == t2 + [Onboard(fdus[k].(uuid := Some(id)))] && (fdus[k].uuid.Some? ==> fdus[k].uuid.value == id)
    ensures AllOnboarded(t, t3, fdus[..k + 1])
  {
    OnboardedFirst(t, t, t1, t3, fdus[..k]);
    var more := fdus[..k + 1];
    forall j | 0 <= j < |more| && more[j].uuid.Some? ensures Did(t, t3, Onboard(more[j])) {
      if j < k { assert more[j] == fdus[..k][j]; } else { assert t3[|t2|] == Onboard(more[j]); }
    }
  }

  /** The onboarding loop of the scheduling job. */
  method OnboardAll(c: Cluster, fdus: seq<FDUDescriptor>) returns (r: Result<()>)
    requires c.Valid()
    modifies c
    ensures c.Valid() && c.claimed == old(c.claimed)
    ensures Steady(old(c.Now()), c.Now(), c.claimed, c.alone, {})
    ensures r.Err? ==> r.error == COLLISION && !AllFilled(fdus)
    ensures r.Ok? ==> AllOnboarded(old(c.trace), c.trace, fdus)
    ensures c.alone && r.Ok? ==> Onboarded(old(c.Now()), c.Now(), fdus)
  {
    SteadyRefl(c.Now(), c.claimed, c.alone, {});
    for k := 0 to |fdus|
      invariant c.Valid() && c.claimed == old(c.claimed)
      invariant Steady(old(c.Now()), c.Now(), c.claimed, c.alone, {})
      invariant AllOnboarded(old(c.trace), c.trace, fdus[..k])
      invariant c.alone ==> Onboarded(old(c.Now()), c.Now(), fdus[..k])
    {
      var id := OnboardNext(c, fdus, k, old(c.Now()));
      if id.Err? {
        return Err(id.error);
      }
    }
    assert fdus[..|fdus|] == fdus;
    r := Ok(());
  }

  /** Others act, then one more FDU is onboarded. */
  method OnboardNext(c: Cluster, fdus: seq<FDUDescriptor>, k: nat, ghost start: History) returns (r: Result<Uuid>)
    requires c.Valid() && k < |fdus| && Steady(start, c.Now(), c.claimed, c.alone, {})
    requires AllOnboarded(start.trace, c.trace, fdus[..k])
    requires c.alone ==> Onboarded(start, c.Now(), fdus[..k])
    modifies c
    ensures c.Valid() && c.claimed == old(c.claimed) && Steady(start, c.Now(), c.claimed, c.alone, {})
    ensures r.Err? ==> r.error == COLLISION && fdus[k].uuid.None?
    ensures r.Ok? ==> AllOnboarded(start.trace, c.trace, fdus[..k + 1])
    ensures c.alone && r.Ok? ==> Onboarded(start, c.Now(), fdus[..k + 1])
  {
    ghost var before := c.Now();
    c.Others();
    ghost var waited := c.Now();
    SteadyAgain(start, before, waited, c.claimed, c.claimed, c.alone, {});
    r := c.OnboardFdu(fdus[k]);
    SteadyAgain(start, waited, c.Now(), c.claimed, c.claimed, c.alone, {});
    if r.Ok? { OneOnboarded(start.trace, before.trace, waited.trace, c.trace, fdus, k, r.value); }
    if c.alone && r.Ok? { OnboardedAfter(start, before, waited, c.Now(), fdus, k, r.value); }
  }

  lemma OnboardedAfter(h: History, h1: History, h2: History, h3: History, fdus: seq<FDUDescriptor>, k: nat, id: Uuid)
    requires k < |fdus| && Onboarded(h, h1, fdus[..k]) && Calm(h1, h2)
    requires fdus[k].uuid.Some? ==> fdus[k].uuid.value == id
    requires h3.world.entities == h2.world.entities
    requires h3.world.catalog == h2.world.catalog[id := fdus[k].(uuid := Some(id))]
    requires h3.trace == h2.trace + [Onboard(fdus[k].(uuid := Some(id)))]
    ensures Onboarded(h, h3, fdus[..k + 1])
  {
    assert fdus[..k + 1] == fdus[..k] + [fdus[k]];
    OnboardedCalm(h, h1, h2, fdus[..k]);
    OnboardedMore(h, h2, h3, fdus[..k], fdus[k], id);
  }

  // ---------------------------------------------------------------- starting one FDU

  /** Instance i of the descriptor runs and is at rest. */
  ghost predicate RunningAs(w: World, i: Uuid, fdu: FDUDescriptor) {
    i in w.records && AtRest(w, i, w.records[i]) && w.records[i].status == RUNNING
      && fdu.uuid == Some(w.records[i].fduUuid)
  }

  /** Its descriptor is catalogued and the hypervisor registered where it runs. */
  ghost predicate Operable(w: World, i: Uuid) {
    i in w.records && Hosted(w, w.records[i].node, w.records[i].fduUuid)
  }

  /** The node that the job sends a request about a record to: itself, or the agent of the
      record's node. */
  method AgentOf(c: Cluster, at: Uuid, node: Uuid) returns (n: Result<Uuid>)
    requires c.Valid() && at in c.w.nodes && node in c.w.nodes
    ensures n == Ok(node)
  {
    if node == at {
      return Ok(at);
    }
    RoutedService(c.origin, c.Now(), node);
    if node !in c.w.infos {
      return Err(NotFound);
    }
    var owner := c.Resolve(c.w.infos[node].agentServiceUuid);
    if owner.None? {
      return Err(ZConnectorError);
    }
    n := Ok(owner.value);
  }

  /** Nothing stands in the way of the operation but a draw that is in use. */
  ghost predicate Unrefused(w: World, v: Verb, rec: FDURecord) {
    Hosted(w, rec.node, rec.fduUuid) && rec.status == SourceOf(v)
  }

  /** A state that the run went through between h and h'; when nobody else acts its catalog was that of
      h'. */
  ghost predicate Lately(origin: World, h: History, m: History, h': History, alone: bool) {
    && Reached(origin, m.trace, m.world) && h.trace <= m.trace <= h'.trace && SameSetup(m.world, h'.world)
    && (alone ==> m.world.catalog == h'.world.catalog)
  }

  /** What would be drawn for an instance of the FDU, or for configuring it, is in use. */
  predicate Taken(random: Random, w: World, fdu: Uuid) {
    random.uuid(w.issued) in w.issued || (fdu in w.catalog && !DrawsFree(random, w.issued, w.catalog[fdu]))
  }

  /** At some time between h and h' a draw for the FDU was in use. */
  ghost predicate Unlucky(origin: World, random: Random, h: History, h': History, alone: bool, fdu: Uuid) {
    exists m: History :: Lately(origin, h, m, h', alone) && Taken(random, m.world, fdu)
  }

  /** At some time between h and h' there was a node that did not accept the FDU. */
  ghost predicate Unwelcome(origin: World, h: History, h': History, alone: bool, fdu: Uuid) {
    exists m: History, n :: Lately(origin, h, m, h', alone) && Declines(m.world, n, fdu)
  }

  ghost predicate Declines(w: World, n: Uuid, fdu: Uuid) {
    n in w.nodes && CheckFdu(w, n, fdu) != Ok(true)
  }

  lemma UnhostedDeclines(w: World, n: Uuid, fdu: Uuid)
    requires n in w.nodes && !Hosted(w, n, fdu)
    ensures Declines(w, n, fdu)
  {
    if CheckFdu(w, n, fdu) == Ok(true) { AcceptedIsHosted(w, n, fdu); }
  }

  lemma LatelyWider(origin: World, h: History, h1: History, m: History, h2: History, h': History, alone: bool)
    requires Lately(origin, h1, m, h2, alone) && h.trace <= h1.trace && h2.trace <= h'.trace
    requires SameSetup(h2.world, h'.world) && (alone ==> h'.world.catalog == h2.world.catalog)
    ensures Lately(origin, h, m, h', alone)
  {
  }

  lemma MomentLately(origin: World, h: History, h1: History, m: History, h': History, alone: bool)
    requires Moment(origin, h1, m, h', alone) && h.trace <= h1.trace
    requires SameSetup(h1.world, h'.world) && (alone ==> Calm(h1, h'))
    ensures Lately(origin, h, m, h', alone)
  {
  }

  /** What one request to an instance's own agent gives, at rest before and after. */
  ghost predicate Performed(origin: World, random: Random, h: History, h': History, alone: bool, v: Verb, i: Uuid,
                            rec: FDURecord, r: Result<FDURecord>) {
    && (r.Ok? ==> AtRest(h'.world, i, r.value) && SameInstance(rec, r.value, TargetOf(v)))
    && (r.Err? ==> AtRest(h'.world, i, rec))
    && (r.Err? ==> r.error != MalformedDescriptor)
    && (WellFormedRun(h'.trace) && r.Ok? ==> rec.status == SourceOf(v))
    && (WellFormedRun(h'.trace) && r.Err? ==> WhyNot(origin, random, h, h', alone, v, rec, r.error))
    && (alone && WellFormedRun(h.trace) && Unrefused(h.world, v, rec) ==>
          r.Ok? || (r.error == COLLISION && WhyNot(origin, random, h, h', alone, v, rec, r.error)))
  }

  /** At some time between h and h' node n did not host the FDU. */
  ghost predicate Unhosted(origin: World, h: History, h': History, alone: bool, n: Uuid, fdu: Uuid) {
    exists m: History :: Lately(origin, h, m, h', alone) && !Hosted(m.world, n, fdu)
  }

  /** Why the operation fails on an instance: its status, a draw in use, or something missing. */
  ghost predicate WhyNot(origin: World, random: Random, h: History, h': History, alone: bool, v: Verb, rec: FDURecord,
                         error: FError) {
    || (error == COLLISION && v == CONFIGURE && Unlucky(origin, random, h, h', alone, rec.fduUuid))
    || (error == NotFound && Unhosted(origin, h, h', alone, rec.node, rec.fduUuid))
    || (error == TransitionNotAllowed && rec.status != SourceOf(v))
  }

  lemma PerformedFrom(origin: World, random: Random, h: History, h1: History, m: Moments, h2: History,
                      claimed: set<Uuid>, alone: bool, v: Verb, i: Uuid, rec: FDURecord, r: Result<FDURecord>)
    requires AtRest(h.world, i, rec) && i in claimed && Waited(h, h1, claimed, alone)
    requires Operated(origin, random, h1, m, h2, alone, v, i, r) && Steady(h1, h2, claimed, alone, {i})
    requires alone ==> Calm(h1, h2)
    ensures Performed(origin, random, h, h2, alone, v, i, rec, r)
    ensures Steady(h, h2, claimed, alone, {i}) && (alone ==> Calm(h, h2))
  {
    WaitedThen(h, h1, h2, claimed, alone, {i});
    RestWaited(h, h1, claimed, alone, i, rec);
    if r.Err? {
      RestHeld(h1.world, h2.world, i, rec);
      if WellFormedRun(h2.trace) {
        OperationFails(origin, random, h, h1, m, h2, alone, v, i, rec, r);
      }
    }
  }

  lemma OperationFails(origin: World, random: Random, h: History, h1: History, m: Moments, h2: History, alone: bool,
                       v: Verb, i: Uuid, rec: FDURecord, r: Result<FDURecord>)
    requires AtRest(h1.world, i, rec) && h.trace <= h1.trace
    requires Operated(origin, random, h1, m, h2, alone, v, i, r) && SameSetup(h1.world, h2.world)
    requires alone ==> Calm(h1, h2)
    requires WellFormedRun(h2.trace) && r.Err?
    ensures WhyNot(origin, random, h, h2, alone, v, rec, r.error)
    ensures alone && Unrefused(h1.world, v, rec) ==> r.error == COLLISION
  {
    MomentLately(origin, h, h1, m.read, h2, alone);
    if Hosted(m.read.world, rec.node, rec.fduUuid) {
      MomentLately(origin, h, h1, m.called, h2, alone);
      if Collided(random, m.called.world, v, rec) {
        assert Taken(random, m.called.world, rec.fduUuid);
      } else if rec.status == SourceOf(v) {
        assert !Hosted(m.called.world, rec.node, rec.fduUuid);
      }
    }
  }

  /** An instance at rest stays so while others act. */
  lemma RestWaited(h: History, h1: History, claimed: set<Uuid>, alone: bool, i: Uuid, rec: FDURecord)
    requires AtRest(h.world, i, rec) && i in claimed && Waited(h, h1, claimed, alone)
    ensures AtRest(h1.world, i, rec)
  {
    assert Held(h.world, h1.world, i);
    RestHeld(h.world, h1.world, i, rec);
  }

  lemma StillIdle(h: History, h1: History, claimed: set<Uuid>, alone: bool, i: Uuid)
    requires i !in h.world.inflight && i in claimed && Waited(h, h1, claimed, alone)
    ensures i !in h1.world.inflight && h1.world.nodes.Keys == h.world.nodes.Keys
  {
    assert Held(h.world, h1.world, i);
  }

  /** Others act, then the owner's agent is asked for one lifecycle operation. */
  method Perform(c: Cluster, at: Uuid, v: Verb, i: Uuid, ghost rec: FDURecord) returns (r: Result<FDURecord>)
    requires c.Valid() && at in c.w.nodes && AtRest(c.w, i, rec) && i in c.claimed
    modifies c
    ensures c.Valid() && c.claimed == old(c.claimed)
    ensures Steady(old(c.Now()), c.Now(), c.claimed, c.alone, {i}) && (c.alone ==> Calm(old(c.Now()), c.Now()))
    ensures Performed(c.origin, c.random, old(c.Now()), c.Now(), c.alone, v, i, rec, r)
  {
    c.Others();
    ghost var waited := c.Now();
    StillIdle(old(c.Now()), waited, c.claimed, c.alone, i);
    ghost var m;
    r, m := c.Operate(at, v, i);
    PerformedFrom(c.origin, c.random, old(c.Now()), waited, m, c.Now(), c.claimed, c.alone, v, i, rec, r);
  }

  /** Configure and start a scheduled instance on its node. */
  method ConfigureAndStart(c: Cluster, at: Uuid, instance: FDURecord) returns (r: Result<()>)
    requires c.Valid() && at in c.w.nodes && instance.node in c.w.nodes
    requires AtRest(c.w, instance.uuid, instance) && instance.uuid in c.claimed
    modifies c
    ensures c.Valid() && c.claimed == old(c.claimed)
    ensures Steady(old(c.Now()), c.Now(), c.claimed, c.alone, {instance.uuid})
    ensures c.alone ==> Calm(old(c.Now()), c.Now())
    ensures r.Ok? ==> instance.uuid in c.w.records && AtRest(c.w, instance.uuid, c.w.records[instance.uuid])
    ensures r.Ok? ==> SameInstance(instance, c.w.records[instance.uuid], RUNNING)
    ensures r.Err? ==> r.error != MalformedDescriptor
    ensures WellFormedRun(c.trace) && instance.status == DEFINED && r.Err? ==>
      && WhyNot(c.origin, c.random, old(c.Now()), c.Now(), c.alone, CONFIGURE, instance, r.error)
      && (c.alone && Hosted(old(c.w), instance.node, instance.fduUuid) ==> r.error == COLLISION)
  {
    var i := instance.uuid;
    var n := AgentOf(c, at, instance.node);
    var configured := Perform(c, n.value, CONFIGURE, i, instance);
    ghost var middle := c.Now();
    if configured.Err? {
      ConfigureRefused(c.origin, c.random, old(c.Now()), middle, c.alone, i, instance, configured);
      return Err(configured.error);
    }
    var started := Perform(c, n.value, START, i, configured.value);
    SteadyAgain(old(c.Now()), middle, c.Now(), c.claimed, c.claimed, c.alone, {i});
    StartRefusedAfter(c.origin, c.random, old(c.Now()), middle, c.Now(), c.alone, i, instance, configured.value,
                      started);
    r := if started.Ok? then Ok(()) else Err(started.error);
  }

  lemma ConfigureRefused(origin: World, random: Random, h: History, h1: History, alone: bool, i: Uuid, rec: FDURecord,
                         r: Result<FDURecord>)
    requires Performed(origin, random, h, h1, alone, CONFIGURE, i, rec, r) && h.trace <= h1.trace && r.Err?
    ensures WellFormedRun(h1.trace) && rec.status == DEFINED ==>
      && WhyNot(origin, random, h, h1, alone, CONFIGURE, rec, r.error)
      && (alone && Hosted(h.world, rec.node, rec.fduUuid) ==> r.error == COLLISION)
  {
    if WellFormedRun(h1.trace) { WellFormedBefore(h.trace, h1.trace); }
  }

  lemma StartRefusedAfter(origin: World, random: Random, h: History, h1: History, h2: History, alone: bool, i: Uuid,
                          rec: FDURecord, rec1: FDURecord, r: Result<FDURecord>)
    requires Performed(origin, random, h1, h2, alone, START, i, rec1, r) && h1.trace <= h2.trace
    requires SameInstance(rec, rec1, CONFIGURED) && h.trace <= h1.trace && SameSetup(h1.world, h2.world)
    requires SameSetup(h.world, h1.world) && (alone ==> Calm(h, h1))
    ensures WellFormedRun(h2.trace) && r.Err? ==>
      && WhyNot(origin, random, h, h2, alone, CONFIGURE, rec, r.error)
      && !(alone && Hosted(h.world, rec.node, rec.fduUuid))
  {
    if WellFormedRun(h2.trace) && r.Err? {
      WellFormedBefore(h1.trace, h2.trace);
      StillUnhosted(origin, h, h1, h2, h2, alone, rec.node, rec.fduUuid);
    }
  }

  lemma StillUnhosted(origin: World, h: History, h1: History, h2: History, h': History, alone: bool, n: Uuid,
                      fdu: Uuid)
    requires Unhosted(origin, h1, h2, alone, n, fdu) && h.trace <= h1.trace && h2.trace <= h'.trace
    requires SameSetup(h2.world, h'.world) && (alone ==> h'.world.catalog == h2.world.catalog)
    ensures Unhosted(origin, h, h', alone, n, fdu)
  {
    var m :| Lately(origin, h1, m, h2, alone) && !Hosted(m.world, n, fdu);
    LatelyWider(origin, h, h1, m, h2, h', alone);
  }

  // ---------------------------------------------------------------- why a start can fail

  /** No node answers Ok(true) when it is asked. */
  ghost predicate Unaccepted(w: World, fdu: Uuid) {
    forall n | n in w.nodes :: CheckFdu(w, n, fdu) != Ok(true)
  }

  /** Why an FDU could not be scheduled, configured and started between h and h' where no descriptor is
      ill-formed: a draw for it was in use, or something was not found; when nobody else acts that is a
      node to run it. */
  ghost predicate StartRefused(origin: World, random: Random, h: History, h': History, alone: bool, fdu: Uuid,
                               error: FError) {
    || (error == COLLISION && Unlucky(origin, random, h, h', alone, fdu))
    || (error == NotFound && Unwelcome(origin, h, h', alone, fdu) && (alone ==> Unaccepted(h'.world, fdu)))
  }

  lemma SameCheck(w: World, w': World, n: Uuid, fdu: Uuid)
    requires SameSetup(w, w') && w'.catalog == w.catalog
    ensures CheckFdu(w', n, fdu) == CheckFdu(w, n, fdu)
  {
  }

  lemma StillUnaccepted(w: World, w': World, fdu: Uuid)
    requires SameSetup(w, w') && w'.catalog == w.catalog && Unaccepted(w, fdu)
    ensures Unaccepted(w', fdu)
  {
    forall n | n in w'.nodes ensures CheckFdu(w', n, fdu) != Ok(true) {
      SameCheck(w, w', n, fdu);
    }
  }

  /** A refusal between h1 and h2 is one in any longer stretch that goes on without changing the catalog. */
  lemma StillRefused(origin: World, random: Random, h: History, h1: History, h2: History, h': History, alone: bool,
                     fdu: Uuid, error: FError)
    requires StartRefused(origin, random, h1, h2, alone, fdu, error) && h.trace <= h1.trace && h2.trace <= h'.trace
    requires SameSetup(h2.world, h'.world) && (alone ==> Calm(h2, h'))
    ensures StartRefused(origin, random, h, h', alone, fdu, error)
  {
    if error == COLLISION {
      StillUnlucky(origin, random, h, h1, h2, h', alone, fdu);
    } else {
      StillUnwelcome(origin, h, h1, h2, h', alone, fdu);
      if alone { StillUnaccepted(h2.world, h'.world, fdu); }
    }
  }

  lemma StillUnlucky(origin: World, random: Random, h: History, h1: History, h2: History, h': History, alone: bool,
                     fdu: Uuid)
    requires Unlucky(origin, random, h1, h2, alone, fdu) && h.trace <= h1.trace && h2.trace <= h'.trace
    requires SameSetup(h2.world, h'.world) && (alone ==> h'.world.catalog == h2.world.catalog)
    ensures Unlucky(origin, random, h, h', alone, fdu)
  {
    var m :| Lately(origin, h1, m, h2, alone) && Taken(random, m.world, fdu);
    LatelyWider(origin, h, h1, m, h2, h', alone);
  }

  lemma StillUnwelcome(origin: World, h: History, h1: History, h2: History, h': History, alone: bool, fdu: Uuid)
    requires Unwelcome(origin, h1, h2, alone, fdu) && h.trace <= h1.trace && h2.trace <= h'.trace
    requires SameSetup(h2.world, h'.world) && (alone ==> h'.world.catalog == h2.world.catalog)
    ensures Unwelcome(origin, h, h', alone, fdu)
  {
    var m, n :| Lately(origin, h1, m, h2, alone) && Declines(m.world, n, fdu);
    LatelyWider(origin, h, h1, m, h2, h', alone);
  }

  /** When nobody else acts, the answers at the moments of asking are the answers at the end. */
  lemma NoneAcceptedUnaccepted(origin: World, h: History, moments: map<Uuid, History>, h': History, fdu: Uuid)
    requires AskedAt(origin, h, moments, h', true) && NoneAccepted(h.world, moments, fdu)
    requires SameSetup(h.world, h'.world) && Calm(h, h')
    ensures Unaccepted(h'.world, fdu)
  {
    forall n | n in h'.world.nodes ensures CheckFdu(h'.world, n, fdu) != Ok(true) {
      assert Moment(origin, h, moments[n], h', true);
      SameCheck(h.world, moments[n].world, n, fdu);
      SameCheck(h.world, h'.world, n, fdu);
    }
  }

  /** One turn of the starting loop: schedule, configure and start one FDU. made holds what was
      defined on the way, also when a later step fails. */
  method StartOne(c: Cluster, at: Uuid, fdu: FDUDescriptor) returns (r: Result<Uuid>, ghost made: set<Uuid>)
    requires c.Valid() && at in c.w.nodes
    modifies c
    ensures c.Valid() && c.claimed == old(c.claimed) + made && made !! old(c.w.issued)
    ensures Steady(old(c.Now()), c.Now(), old(c.claimed), c.alone, made)
    ensures c.alone ==> Calm(old(c.Now()), c.Now())
    ensures r.Ok? ==> made == {r.value} && RunningAs(c.w, r.value, fdu)
    ensures c.alone && r.Ok? ==> Operable(c.w, r.value)
    ensures r.Err? && r.error == MalformedDescriptor ==> fdu.uuid == None
    ensures WellFormedRun(c.trace) && r.Err? && fdu.uuid.Some? ==>
        StartRefused(c.origin, c.random, old(c.Now()), c.Now(), c.alone, fdu.uuid.value, r.error)
  {
    made := {};
    SteadyRefl(c.Now(), c.claimed, c.alone, {});
    if fdu.uuid.None? {
      r := Err(MalformedDescriptor);
    } else {
      var instance := ScheduleHosted(c, at, fdu.uuid.value);
      made := Defined(instance);
      if instance.Err? {
        r := Err(instance.error);
      } else {
        r := RunScheduled(c, at, instance.value, old(c.Now()), old(c.claimed));
      }
    }
  }

  /** The scheduled instance is configured and started. */
  method RunScheduled(c: Cluster, at: Uuid, instance: FDURecord, ghost start: History, ghost claimed: set<Uuid>)
    returns (r: Result<Uuid>)
    requires c.Valid() && at in c.w.nodes && instance.node in c.w.nodes && AtRest(c.w, instance.uuid, instance)
    requires c.claimed == claimed + {instance.uuid} && Steady(start, c.Now(), claimed, c.alone, {instance.uuid})
    requires c.alone ==> Calm(start, c.Now()) && Hosted(c.w, instance.node, instance.fduUuid)
    modifies c
    ensures c.Valid() && c.claimed == old(c.claimed)
    ensures Steady(start, c.Now(), claimed, c.alone, {instance.uuid}) && (c.alone ==> Calm(start, c.Now()))
    ensures r.Ok? ==> r.value == instance.uuid && r.value in c.w.records && AtRest(c.w, r.value, c.w.records[r.value])
    ensures r.Ok? ==> SameInstance(instance, c.w.records[r.value], RUNNING)
    ensures c.alone && r.Ok? ==> Operable(c.w, r.value)
    ensures r.Err? ==> r.error != MalformedDescriptor
    ensures WellFormedRun(c.trace) && instance.status == DEFINED && r.Err? ==>
        StartRefused(c.origin, c.random, start, c.Now(), c.alone, instance.fduUuid, r.error)
  {
    ghost var scheduled := c.Now();
    var started := ConfigureAndStart(c, at, instance);
    SteadyAgain(start, scheduled, c.Now(), claimed, c.claimed, c.alone, {instance.uuid});
    if started.Err? && WellFormedRun(c.trace) && instance.status == DEFINED {
      RunRefused(c.origin, c.random, start, scheduled, c.Now(), c.alone, instance, started.error);
    }
    r := if started.Ok? then Ok(instance.uuid) else Err(started.error);
  }

  lemma RunRefused(origin: World, random: Random, h: History, h1: History, h': History, alone: bool, rec: FDURecord,
                   error: FError)
    requires WhyNot(origin, random, h1, h', alone, CONFIGURE, rec, error) && h.trace <= h1.trace
    requires rec.status == DEFINED && rec.node in h'.world.nodes && (alone ==> error == COLLISION)
    ensures StartRefused(origin, random, h, h', alone, rec.fduUuid, error)
  {
    if error == COLLISION {
      StillUnlucky(origin, random, h, h1, h', h', alone, rec.fduUuid);
    } else {
      var m :| Lately(origin, h1, m, h', alone) && !Hosted(m.world, rec.node, rec.fduUuid);
      LatelyWider(origin, h, h1, m, h', h', alone);
      UnhostedDeclines(m.world, rec.node, rec.fduUuid);
    }
  }

  /** schedule_fdu, as a job uses it: when nobody else acts the new instance is hosted. */
  method ScheduleHosted(c: Cluster, at: Uuid, fdu: Uuid) returns (r: Result<FDURecord>)
    requires c.Valid() && at in c.w.nodes
    modifies c
    ensures c.Valid() && c.claimed == old(c.claimed) + Defined(r)
    ensures Steady(old(c.Now()), c.Now(), old(c.claimed), c.alone, Defined(r))
    ensures c.alone ==> Calm(old(c.Now()), c.Now())
    ensures r.Ok? ==> r.value == NewInstance(r.value.node, fdu, r.value.uuid) && r.value.node in c.w.nodes
    ensures r.Ok? ==> r.value.uuid !in old(c.w).issued && AtRest(c.w, r.value.uuid, r.value)
    ensures c.alone && r.Ok? ==> Hosted(c.w, r.value.node, fdu)
    ensures r.Err? ==> StartRefused(c.origin, c.random, old(c.Now()), c.Now(), c.alone, fdu, r.error)
  {
    ghost var choice;
    r, choice := c.ScheduleFdu(at, fdu);
    if r.Ok? {
      ScheduledHosted(c.origin, c.random, old(c.Now()), choice, c.Now(), c.alone, fdu, r.value);
    } else {
      ScheduleRefused(c.origin, c.random, old(c.Now()), choice, c.Now(), c.alone, at, fdu, r.error);
    }
  }

  lemma ScheduledHosted(origin: World, random: Random, h: History, choice: Choice, h': History, alone: bool, fdu: Uuid,
                        rec: FDURecord)
    requires Scheduled(origin, random, h, choice, h', alone, fdu, Ok(rec)) && SameSetup(h.world, h'.world)
    requires alone ==> Calm(h, h')
    ensures rec == NewInstance(rec.node, fdu, rec.uuid) && rec.uuid !in h.world.issued
    ensures AtRest(h'.world, rec.uuid, rec)
    ensures rec.node in h'.world.nodes && (alone ==> Hosted(h'.world, rec.node, fdu))
  {
    if alone {
      assert Moment(origin, h, choice.asked[choice.node], h', alone);
      AcceptedStaysHosted(h, choice.asked[choice.node], h', choice.node, fdu);
    }
  }

  lemma ScheduleRefused(origin: World, random: Random, h: History, choice: Choice, h': History, alone: bool, at: Uuid,
                        fdu: Uuid, error: FError)
    requires Scheduled(origin, random, h, choice, h', alone, fdu, Err(error)) && SameSetup(h.world, h'.world)
    requires at in h.world.nodes && (alone ==> Calm(h, h'))
    ensures StartRefused(origin, random, h, h', alone, fdu, error)
  {
    if NoneAccepted(h.world, choice.asked, fdu) {
      assert Moment(origin, h, choice.asked[at], h', alone);
      MomentLately(origin, h, h, choice.asked[at], h', alone);
      assert Declines(choice.asked[at].world, at, fdu);
      if alone { NoneAcceptedUnaccepted(origin, h, choice.asked, h', fdu); }
    } else {
      DefineRefused(origin, random, h, choice, h', alone, fdu, error);
    }
  }

  lemma DefineRefused(origin: World, random: Random, h: History, choice: Choice, h': History, alone: bool, fdu: Uuid,
                      error: FError)
    requires Scheduled(origin, random, h, choice, h', alone, fdu, Err(error)) && SameSetup(h.world, h'.world)
    requires !NoneAccepted(h.world, choice.asked, fdu) && (alone ==> Calm(h, h'))
    ensures StartRefused(origin, random, h, h', alone, fdu, error)
  {
    if Hosted(choice.define.read.world, choice.node, fdu) {
      MomentLately(origin, h, h, choice.define.called, h', alone);
      assert Taken(random, choice.define.called.world, fdu);
    } else {
      DefineUnhosted(origin, random, h, choice, h', alone, fdu);
    }
  }

  lemma DefineUnhosted(origin: World, random: Random, h: History, choice: Choice, h': History, alone: bool, fdu: Uuid)
    requires Scheduled(origin, random, h, choice, h', alone, fdu, Err(NotFound)) && SameSetup(h.world, h'.world)
    requires !NoneAccepted(h.world, choice.asked, fdu) && !Hosted(choice.define.read.world, choice.node, fdu)
    requires alone ==> Calm(h, h')
    ensures !alone && Unwelcome(origin, h, h', alone, fdu)
  {
    if alone { ChosenHosts(origin, random, h, choice, h', fdu, Err(NotFound)); }
    MomentLately(origin, h, h, choice.define.read, h', alone);
    UnhostedDeclines(choice.define.read.world, choice.node, fdu);
  }

  // ---------------------------------------------------------------- starting all FDUs

  /** The first |ids| FDUs run, each as an instance of its own. */
  ghost predicate AllRunning(w: World, ids: seq<Uuid>, fdus: seq<FDUDescriptor>) {
    && |ids| <= |fdus| && NoDup(ids)
    && forall k | 0 <= k < |ids| :: RunningAs(w, ids[k], fdus[k])
  }

  /** From h to h' the instances in made were defined, and the first FDUs started as ids. */
  ghost predicate Progress(h: History, h': History, claimed: set<Uuid>, alone: bool, made: set<Uuid>, ids: seq<Uuid>,
                           fdus: seq<FDUDescriptor>) {
    && Steady(h, h', claimed, alone, made) && made !! h.world.issued
    && AllRunning(h'.world, ids, fdus) && (forall k | 0 <= k < |ids| :: ids[k] in made)
    && (alone ==> Calm(h, h') && forall k | 0 <= k < |ids| :: Operable(h'.world, ids[k]))
  }

  /** Running instances that a later step does not touch keep running. */
  lemma RunningStays(h: History, h': History, claimed: set<Uuid>, alone: bool, own: set<Uuid>, ids: seq<Uuid>,
                     fdus: seq<FDUDescriptor>)
    requires Steady(h, h', claimed, alone, own) && AllRunning(h.world, ids, fdus)
    requires forall k | 0 <= k < |ids| :: ids[k] in claimed && ids[k] !in own
    ensures AllRunning(h'.world, ids, fdus)
    ensures forall k | 0 <= k < |ids| :: h'.world.records[ids[k]] == h.world.records[ids[k]]
  {
    forall k | 0 <= k < |ids|
      ensures RunningAs(h'.world, ids[k], fdus[k]) && h'.world.records[ids[k]] == h.world.records[ids[k]]
    {
      assert RunningAs(h.world, ids[k], fdus[k]);
      assert Held(h.world, h'.world, ids[k]);
    }
  }

  lemma OperableStays(h: History, h': History, ids: seq<Uuid>)
    requires SameSetup(h.world, h'.world) && h'.world.catalog == h.world.catalog
    requires forall k | 0 <= k < |ids| :: Operable(h.world, ids[k])
    requires forall k | 0 <= k < |ids| ::
        ids[k] in h.world.records && ids[k] in h'.world.records && h'.world.records[ids[k]] == h.world.records[ids[k]]
    ensures forall k | 0 <= k < |ids| :: Operable(h'.world, ids[k])
  {
    forall k | 0 <= k < |ids| ensures Operable(h'.world, ids[k]) {
      assert Operable(h.world, ids[k]);
    }
  }

  lemma ProgressMade(h: History, h1: History, h2: History, claimed: set<Uuid>, claimed1: set<Uuid>, alone: bool,
                     made: set<Uuid>, made1: set<Uuid>, ids: seq<Uuid>, fdus: seq<FDUDescriptor>)
    requires Progress(h, h1, claimed, alone, made, ids, fdus) && claimed <= claimed1
    requires forall k | 0 <= k < |ids| :: ids[k] in claimed1
    requires claimed1 <= h1.world.issued && Steady(h1, h2, claimed1, alone, made1) && made1 !! h1.world.issued
    requires alone ==> Calm(h1, h2)
    ensures Progress(h, h2, claimed, alone, made + made1, ids, fdus)
  {
    SteadyTrans(h, h1, h2, claimed, claimed1, alone, made, made1);
    RunningStays(h1, h2, claimed1, alone, made1, ids, fdus);
    if alone { OperableStays(h1, h2, ids); }
  }

  lemma ProgressStarted(h: History, h2: History, claimed: set<Uuid>, alone: bool,
                        made: set<Uuid>, ids: seq<Uuid>, fdus: seq<FDUDescriptor>, i: Uuid)
    requires Progress(h, h2, claimed, alone, made, ids, fdus) && |ids| < |fdus| && i in made
    requires RunningAs(h2.world, i, fdus[|ids|]) && (alone ==> Operable(h2.world, i)) && i !in ids
    ensures Progress(h, h2, claimed, alone, made, ids + [i], fdus)
  {
    var more := ids + [i];
    forall k | 0 <= k < |more| ensures RunningAs(h2.world, more[k], fdus[k]) && more[k] in made {
      if k < |ids| { assert more[k] == ids[k] && RunningAs(h2.world, ids[k], fdus[k]); }
    }
  }

  /** The starting loop of the scheduling job. On success the k-th id is a running instance of the
      k-th FDU; on an error the FDUs before the failing one run. */
  method StartAll(c: Cluster, at: Uuid, fdus: seq<FDUDescriptor>)
    returns (r: Result<seq<Uuid>>, ghost ids: seq<Uuid>, ghost made: set<Uuid>)
    requires c.Valid() && at in c.w.nodes
    modifies c
    ensures c.Valid() && c.claimed == old(c.claimed) + made
    ensures Progress(old(c.Now()), c.Now(), old(c.claimed), c.alone, made, ids, fdus)
    ensures r.Ok? ==> r.value == ids && |ids| == |fdus| && made == SetOf(ids)
    ensures r.Err? ==> |ids| < |fdus|
    ensures r.Err? && r.error == MalformedDescriptor ==> fdus[|ids|].uuid == None
    ensures WellFormedRun(c.trace) && r.Err? && fdus[|ids|].uuid.Some? ==>
        StartRefused(c.origin, c.random, old(c.Now()), c.Now(), c.alone, fdus[|ids|].uuid.value, r.error)
  {
    var started: seq<Uuid> := [];
    ids, made := [], {};
    SteadyRefl(c.Now(), c.claimed, c.alone, {});
    for k := 0 to |fdus|
      invariant c.Valid() && c.claimed == old(c.claimed) + made && |ids| == k && started == ids
      invariant Progress(old(c.Now()), c.Now(), old(c.claimed), c.alone, made, ids, fdus)
      invariant made == SetOf(ids)
    {
      var instance;
      instance, made := StartNext(c, at, fdus, started, old(c.Now()), old(c.claimed), made);
      if instance.Err? {
        return Err(instance.error), ids, made;
      }
      started, ids := started + [instance.value], ids + [instance.value];
    }
    r := Ok(started);
  }

  method StartNext(c: Cluster, at: Uuid, fdus: seq<FDUDescriptor>, ids: seq<Uuid>, ghost start: History,
                   ghost claimed: set<Uuid>, ghost made: set<Uuid>)
    returns (r: Result<Uuid>, ghost made': set<Uuid>)
    requires c.Valid() && at in c.w.nodes && |ids| < |fdus|
    requires c.claimed == claimed + made && made == SetOf(ids)
    requires Progress(start, c.Now(), claimed, c.alone, made, ids, fdus)
    modifies c
    ensures c.Valid() && c.claimed == claimed + made'
    ensures r.Ok? ==> made' == SetOf(ids + [r.value])
    ensures Progress(start, c.Now(), claimed, c.alone, made', if r.Ok? then ids + [r.value] else ids, fdus)
    ensures r.Err? && r.error == MalformedDescriptor ==> fdus[|ids|].uuid == None
    ensures WellFormedRun(c.trace) && r.Err? && fdus[|ids|].uuid.Some? ==>
        StartRefused(c.origin, c.random, start, c.Now(), c.alone, fdus[|ids|].uuid.value, r.error)
  {
    ghost var before, claimed1 := c.Now(), c.claimed;
    ghost var more;
    r, more := StartOne(c, at, fdus[|ids|]);
    made' := made + more;
    ProgressMade(start, before, c.Now(), claimed, claimed1, c.alone, made, more, ids, fdus);
    if r.Err? && WellFormedRun(c.trace) && fdus[|ids|].uuid.Some? {
      StillRefused(c.origin, c.random, start, before, c.Now(), c.Now(), c.alone, fdus[|ids|].uuid.value, r.error);
    }
    if r.Ok? { NextStarted(start, c.Now(), claimed, c.alone, made, made', ids, fdus, r.value); }
  }

  lemma NextStarted(h: History, h2: History, claimed: set<Uuid>, alone: bool, made: set<Uuid>, made': set<Uuid>,
                    ids: seq<Uuid>, fdus: seq<FDUDescriptor>, i: Uuid)
    requires Progress(h, h2, claimed, alone, made', ids, fdus) && |ids| < |fdus|
    requires made == SetOf(ids) && made' == made + {i} && i !in made
    requires RunningAs(h2.world, i, fdus[|ids|]) && (alone ==> Operable(h2.world, i))
    ensures Progress(h, h2, claimed, alone, made', ids + [i], fdus) && made' == SetOf(ids + [i])
  {
    ProgressStarted(h, h2, claimed, alone, made', ids, fdus, i);
    assert SetOf(ids + [i]) == SetOf(ids) + {i};
  }

  // ---------------------------------------------------------------- the scheduling job

  /** The entity record can be put again: it is stored, for the same entity. */
  ghost predicate Publishable(w: World, rec: EntityRecord) {
    rec.uuid in w.entityRecords && w.entityRecords[rec.uuid].id == rec.id
  }

  lemma PublishableKept(h: History, h': History, claimed: set<Uuid>, alone: bool, own: set<Uuid>, rec: EntityRecord)
    requires Steady(h, h', claimed, alone, own) && rec.uuid in claimed && rec.uuid !in own && Publishable(h.world, rec)
    ensures Publishable(h'.world, rec) && h'.world.entityRecords[rec.uuid] == h.world.entityRecords[rec.uuid]
    ensures Shown(h.trace, h'.trace, rec.uuid, [])
  {
    assert Held(h.world, h'.world, rec.uuid);
  }

  /** Onboard the FDUs and announce that starting begins. */
  method Prepare(c: Cluster, instance: EntityRecord, fdus: seq<FDUDescriptor>) returns (r: Result<()>)
    requires c.Valid() && instance.uuid in c.claimed && Publishable(c.w, instance)
    modifies c
    ensures c.Valid() && c.claimed == old(c.claimed) && Publishable(c.w, instance)
    ensures Steady(old(c.Now()), c.Now(), c.claimed, c.alone, {instance.uuid})
    ensures r.Err? ==> r.error == COLLISION && !AllFilled(fdus)
    ensures Shown(old(c.trace), c.trace, instance.uuid, if r.Ok? then [ONBOARDED, STARTING] else [])
    ensures r.Ok? ==> AllOnboarded(old(c.trace), c.trace, fdus)
    ensures c.alone && r.Ok? ==> Onboarded(old(c.Now()), c.Now(), fdus)
  {
    r := OnboardAll(c, fdus);
    ghost var h1 := c.Now();
    PublishableKept(old(c.Now()), h1, c.claimed, c.alone, {}, instance);
    SteadyWiden(old(c.Now()), h1, c.claimed, c.alone, {}, {instance.uuid});
    if r.Ok? {
      AnnounceStarting(c, instance);
      SteadyAgain(old(c.Now()), h1, c.Now(), c.claimed, c.claimed, c.alone, {instance.uuid});
      OnboardedFirst(old(c.trace), old(c.trace), h1.trace, c.trace, fdus);
      ShownAfterNothing(old(c.trace), h1.trace, c.trace, instance.uuid, [ONBOARDED, STARTING]);
      if c.alone { OnboardedCalm(old(c.Now()), h1, c.Now(), fdus); }
    }
  }

  lemma ShownAfterNothing(t: seq<Label>, t1: seq<Label>, t2: seq<Label>, e: Uuid, a: seq<EntityStatus>)
    requires Shown(t, t1, e, []) && Shown(t1, t2, e, a)
    ensures Shown(t, t2, e, a)
  {
    ShownTrans(t, t1, t2, e, [], a);
    assert [] + a == a;
  }

  method AnnounceStarting(c: Cluster, instance: EntityRecord)
    requires c.Valid() && instance.uuid in c.claimed && Publishable(c.w, instance)
    modifies c
    ensures c.Valid() && c.claimed == old(c.claimed) && Publishable(c.w, instance)
    ensures Steady(old(c.Now()), c.Now(), c.claimed, c.alone, {instance.uuid})
    ensures c.alone ==> Calm(old(c.Now()), c.Now())
    ensures Shown(old(c.trace), c.trace, instance.uuid, [ONBOARDED, STARTING])
  {
    c.Publish(instance.(status := ONBOARDED));
    ghost var h1 := c.Now();
    c.Publish(instance.(status := STARTING));
    SteadyAgain(old(c.Now()), h1, c.Now(), c.claimed, c.claimed, c.alone, {instance.uuid});
    ShownTrans(old(c.trace), h1.trace, c.trace, instance.uuid, [ONBOARDED], [STARTING]);
  }

  /** What the scheduling job leaves of the FDUs it started. */
  ghost predicate Started(h: History, h': History, claimed: set<Uuid>, alone: bool, e: Uuid, made: set<Uuid>,
                          ids: seq<Uuid>, fdus: seq<FDUDescriptor>) {
    && Steady(h, h', claimed, alone, made + {e}) && made !! h.world.issued
    && AllRunning(h'.world, ids, fdus) && (forall k | 0 <= k < |ids| :: ids[k] in made)
    && (alone ==> Onboarded(h, h', fdus) && forall k | 0 <= k < |ids| :: Operable(h'.world, ids[k]))
  }

  lemma StartedFrom(h: History, h3: History, h4: History, claimed: set<Uuid>, alone: bool, instance: EntityRecord,
                    made: set<Uuid>, ids: seq<Uuid>, fdus: seq<FDUDescriptor>)
    requires Steady(h, h3, claimed, alone, {instance.uuid}) && (alone ==> Onboarded(h, h3, fdus))
    requires Progress(h3, h4, claimed, alone, made, ids, fdus)
    requires instance.uuid in claimed && instance.uuid in h3.world.issued && Publishable(h3.world, instance)
    requires Shown(h.trace, h3.trace, instance.uuid, [ONBOARDED, STARTING])
    ensures Started(h, h4, claimed, alone, instance.uuid, made, ids, fdus)
    ensures Publishable(h4.world, instance) && Shown(h.trace, h4.trace, instance.uuid, [ONBOARDED, STARTING])
  {
    var e := instance.uuid;
    PublishableKept(h3, h4, claimed, alone, made, instance);
    ShownNothing(h.trace, h3.trace, h4.trace, e, [ONBOARDED, STARTING]);
    SteadyTrans(h, h3, h4, claimed, claimed, alone, {e}, made);
    assert {e} + made == made + {e};
    if alone { OnboardedCalm(h, h3, h4, fdus); }
  }

  lemma StartedPublished(h: History, h4: History, h5: History, claimed: set<Uuid>, claimed4: set<Uuid>, alone: bool,
                         e: Uuid, made: set<Uuid>, ids: seq<Uuid>, fdus: seq<FDUDescriptor>)
    requires Started(h, h4, claimed, alone, e, made, ids, fdus) && claimed4 == claimed + made && e in h.world.issued
    requires Steady(h4, h5, claimed4, alone, {e}) && (alone ==> Calm(h4, h5))
    ensures Started(h, h5, claimed, alone, e, made, ids, fdus)
  {
    SteadyTrans(h, h4, h5, claimed, claimed4, alone, made + {e}, {e});
    assert made + {e} + {e} == made + {e};
    RunningStays(h4, h5, claimed4, alone, {e}, ids, fdus);
    if alone {
      OnboardedCalm(h, h4, h5, fdus);
      OperableStays(h4, h5, ids);
    }
  }

  /** All FDUs run: put the record with their instances. */
  method AnnounceRunning(c: Cluster, instance: EntityRecord, ids: seq<Uuid>,
                         ghost start: History, ghost claimed: set<Uuid>, ghost made: set<Uuid>,
                         ghost fdus: seq<FDUDescriptor>)
    requires c.Valid() && instance.uuid in claimed && instance.uuid in start.world.issued && Publishable(c.w, instance)
    requires Started(start, c.Now(), claimed, c.alone, instance.uuid, made, ids, fdus) && c.claimed == claimed + made
    modifies c
    ensures c.Valid() && c.claimed == old(c.claimed)
    ensures Started(start, c.Now(), claimed, c.alone, instance.uuid, made, ids, fdus)
    ensures instance.uuid in c.w.entityRecords
    ensures c.w.entityRecords[instance.uuid] == instance.(status := RUNNING_ENTITY, fdus := instance.fdus + ids)
    ensures Shown(old(c.trace), c.trace, instance.uuid, [RUNNING_ENTITY]) && old(c.trace) <= c.trace
  {
    ghost var before := c.Now();
    c.Publish(instance.(status := RUNNING_ENTITY, fdus := instance.fdus + ids));
    StartedPublished(start, before, c.Now(), claimed, c.claimed, c.alone, instance.uuid, made, ids, fdus);
  }

  lemma ShownRunning(t: seq<Label>, t1: seq<Label>, t2: seq<Label>, e: Uuid)
    requires Shown(t, t1, e, [ONBOARDED, STARTING]) && Shown(t1, t2, e, [RUNNING_ENTITY])
    ensures Shown(t, t2, e, [ONBOARDED, STARTING, RUNNING_ENTITY])
  {
    ShownTrans(t, t1, t2, e, [ONBOARDED, STARTING], [RUNNING_ENTITY]);
  }

  /** The first FDU that was not started was refused. */
  ghost predicate Refused(origin: World, random: Random, h: History, h': History, alone: bool, ids: seq<Uuid>,
                          fdus: seq<FDUDescriptor>, error: FError) {
    && |ids| < |fdus| && fdus[|ids|].uuid.Some?
    && StartRefused(origin, random, h, h', alone, fdus[|ids|].uuid.value, error)
  }

  /** entity_scheduling on node at. On success the k-th id added to the record is a running instance
      of the k-th FDU, all distinct and new, and exactly ONBOARDED, STARTING and RUNNING were
      published; on an error in the starting loop the FDUs before the failing one run and RUNNING
      was not published. With every FDU's UUID filled in, no descriptor is found malformed, and where
      none is ill-formed the failing FDU was refused. */
  method EntityScheduling(c: Cluster, at: Uuid, instance: EntityRecord, descriptor: EntityDescriptor)
    returns (r: Result<()>, ghost ids: seq<Uuid>, ghost made: set<Uuid>)
    requires c.Valid() && at in c.w.nodes && instance.uuid in c.claimed && Publishable(c.w, instance)
    modifies c
    ensures c.Valid() && c.claimed == old(c.claimed) + made && Publishable(c.w, instance)
    ensures AllRunning(c.w, ids, descriptor.fdus) && forall k | 0 <= k < |ids| :: ids[k] in made
    ensures r.Ok? || AllFilled(descriptor.fdus) ==>
        Started(old(c.Now()), c.Now(), old(c.claimed), c.alone, instance.uuid, made, ids, descriptor.fdus)
    ensures Steady(old(c.Now()), c.Now(), old(c.claimed), c.alone, made + {instance.uuid}) && made !! old(c.w.issued)
    ensures r.Ok? ==> |ids| == |descriptor.fdus| && made == SetOf(ids)
    ensures r.Ok? ==>
        c.w.entityRecords[instance.uuid] == instance.(status := RUNNING_ENTITY, fdus := instance.fdus + ids)
    ensures r.Ok? ==> Shown(old(c.trace), c.trace, instance.uuid, [ONBOARDED, STARTING, RUNNING_ENTITY])
    ensures r.Err? ==>
      || (ids == [] && !AllFilled(descriptor.fdus) && r.error == COLLISION
          && Shown(old(c.trace), c.trace, instance.uuid, []))
      || (|ids| < |descriptor.fdus| && Shown(old(c.trace), c.trace, instance.uuid, [ONBOARDED, STARTING]))
    ensures r.Ok? || AllFilled(descriptor.fdus) ==> AllOnboarded(old(c.trace), c.trace, descriptor.fdus)
    ensures AllFilled(descriptor.fdus) && r.Err? ==> r.error != MalformedDescriptor
    ensures WellFormedRun(c.trace) && AllFilled(descriptor.fdus) && r.Err? ==>
        Refused(c.origin, c.random, old(c.Now()), c.Now(), c.alone, ids, descriptor.fdus, r.error)
  {
    var prepared := Prepare(c, instance, descriptor.fdus);
    if prepared.Err? {
      SteadyWiden(old(c.Now()), c.Now(), c.claimed, c.alone, {instance.uuid}, {} + {instance.uuid});
      return prepared, [], {};
    }
    r, ids, made := StartPrepared(c, at, instance, descriptor.fdus, old(c.Now()));
  }

  /** entity_scheduling after it has announced the start. */
  method StartPrepared(c: Cluster, at: Uuid, instance: EntityRecord, fdus: seq<FDUDescriptor>, ghost start: History)
    returns (r: Result<()>, ghost ids: seq<Uuid>, ghost made: set<Uuid>)
    requires c.Valid() && at in c.w.nodes && instance.uuid in c.claimed && Publishable(c.w, instance)
    requires Steady(start, c.Now(), c.claimed, c.alone, {instance.uuid}) && instance.uuid in start.world.issued
    requires Shown(start.trace, c.trace, instance.uuid, [ONBOARDED, STARTING])
    requires AllOnboarded(start.trace, c.trace, fdus) && (c.alone ==> Onboarded(start, c.Now(), fdus))
    modifies c
    ensures c.Valid() && c.claimed == old(c.claimed) + made && Publishable(c.w, instance)
    ensures Started(start, c.Now(), old(c.claimed), c.alone, instance.uuid, made, ids, fdus)
    ensures AllOnboarded(start.trace, c.trace, fdus)
    ensures r.Ok? ==> |ids| == |fdus| && made == SetOf(ids)
    ensures r.Ok? ==>
        c.w.entityRecords[instance.uuid] == instance.(status := RUNNING_ENTITY, fdus := instance.fdus + ids)
    ensures r.Ok? ==> Shown(start.trace, c.trace, instance.uuid, [ONBOARDED, STARTING, RUNNING_ENTITY])
    ensures r.Err? ==> |ids| < |fdus| && Shown(start.trace, c.trace, instance.uuid, [ONBOARDED, STARTING])
    ensures r.Err? && r.error == MalformedDescriptor ==> fdus[|ids|].uuid == None
    ensures WellFormedRun(c.trace) && AllFilled(fdus) && r.Err? ==>
        Refused(c.origin, c.random, start, c.Now(), c.alone, ids, fdus, r.error)
  {
    ghost var h3 := c.Now();
    var started;
    started, ids, made := StartAll(c, at, fdus);
    ghost var h4 := c.Now();
    StartedFrom(start, h3, h4, old(c.claimed), c.alone, instance, made, ids, fdus);
    if started.Ok? {
      AnnounceRunning(c, instance, started.value, start, old(c.claimed), made, fdus);
      ShownRunning(start.trace, h4.trace, c.trace, instance.uuid);
      r := Ok(());
    } else {
      RefusedLater(c.origin, c.random, start, h3, h4, h4, c.alone, ids, fdus, started.error);
      r := Err(started.error);
    }
    OnboardedFirst(start.trace, start.trace, h3.trace, c.trace, fdus);
  }

  lemma RefusedLater(origin: World, random: Random, h: History, h1: History, h2: History, h': History, alone: bool,
                     ids: seq<Uuid>, fdus: seq<FDUDescriptor>, error: FError)
    requires h.trace <= h1.trace && h2.trace <= h'.trace
    requires SameSetup(h2.world, h'.world) && (alone ==> Calm(h2, h'))
    ensures Refused(origin, random, h1, h2, alone, ids, fdus, error) ==>
        Refused(origin, random, h, h', alone, ids, fdus, error)
  {
    if Refused(origin, random, h1, h2, alone, ids, fdus, error) {
      StillRefused(origin, random, h, h1, h2, h', alone, fdus[|ids|].uuid.value, error);
    }
  }

  /** Catalogued entities were filled in when they were onboarded. */
  ghost predicate EntitiesFilled(w: World) {
    forall e | e in w.entities :: w.entities[e].uuid == Some(e) && AllFilled(w.entities[e].fdus)
  }

  lemma {:induction false} RunKeepsFilled(w: World, ls: seq<Label>)
    requires EntitiesFilled(w) && Legal(w, ls)
    ensures EntitiesFilled(Exec(w, ls))
    decreases |ls|
  {
    if ls != [] {
      StepKeepsFilled(w, ls[0]);
      RunKeepsFilled(Next(w, ls[0]), ls[1..]);
    }
  }

  lemma StepKeepsFilled(w: World, l: Label)
    requires EntitiesFilled(w) && Enabled(w, l)
    ensures EntitiesFilled(Next(w, l))
  {
  }

  /** How a finished scheduling job left the record it was given: RUNNING with an instance for
      every FDU, or in ERROR with the instances listed before it started. */
  ghost predicate TaskEnded(h: History, h': History, instance: EntityRecord, ids: seq<Uuid>, fdus: seq<FDUDescriptor>) {
    && AllRunning(h'.world, ids, fdus)
    && instance.uuid in h'.world.entityRecords
    && var rec := h'.world.entityRecords[instance.uuid];
    match rec.status
    case RUNNING_ENTITY =>
      && rec == instance.(status := RUNNING_ENTITY, fdus := instance.fdus + ids) && |ids| == |fdus|
      && Shown(h.trace, h'.trace, instance.uuid, [ONBOARDED, STARTING, RUNNING_ENTITY])
    case ERROR_ENTITY(cause) =>
      && rec == instance.(status := ERROR_ENTITY(cause)) && |ids| < |fdus|
      && Shown(h.trace, h'.trace, instance.uuid, [ONBOARDED, STARTING, ERROR_ENTITY(cause)])
      && cause != MalformedDescriptor
    case _ => false
  }

  /** When nobody else acts, a job that ended RUNNING. */
  ghost predicate AloneStarted(h: History, h': History, made: set<Uuid>, ids: seq<Uuid>, fdus: seq<FDUDescriptor>) {
    && Onboarded(h, h', fdus) && made == SetOf(ids)
    && forall k | 0 <= k < |ids| :: Operable(h'.world, ids[k])
  }

  /** The cause that a finished job put into the record is why its first FDU not started was refused. */
  ghost predicate CauseKnown(origin: World, random: Random, h: History, h': History, alone: bool, e: Uuid,
                             ids: seq<Uuid>, fdus: seq<FDUDescriptor>) {
    e in h'.world.entityRecords && h'.world.entityRecords[e].status.ERROR_ENTITY? ==>
      Refused(origin, random, h, h', alone, ids, fdus, h'.world.entityRecords[e].status.cause)
  }

  /** The job that schedule_entity spawns: on an error the record is put from the copy made before
      the job started. */
  method ScheduleTask(c: Cluster, at: Uuid, instance: EntityRecord, descriptor: EntityDescriptor)
    returns (ghost ids: seq<Uuid>, ghost made: set<Uuid>)
    requires c.Valid() && at in c.w.nodes && instance.uuid in c.claimed && Publishable(c.w, instance)
    requires AllFilled(descriptor.fdus)
    modifies c
    ensures c.Valid() && c.claimed == old(c.claimed) + made
    ensures Steady(old(c.Now()), c.Now(), old(c.claimed), c.alone, made + {instance.uuid}) && made !! old(c.w.issued)
    ensures TaskEnded(old(c.Now()), c.Now(), instance, ids, descriptor.fdus)
    ensures c.alone && c.w.entityRecords[instance.uuid].status == RUNNING_ENTITY ==>
              AloneStarted(old(c.Now()), c.Now(), made, ids, descriptor.fdus)
    ensures WellFormedRun(c.trace) ==>
        CauseKnown(c.origin, c.random, old(c.Now()), c.Now(), c.alone, instance.uuid, ids, descriptor.fdus)
    ensures AllOnboarded(old(c.trace), c.trace, descriptor.fdus)
    ensures c.alone ==> Onboarded(old(c.Now()), c.Now(), descriptor.fdus)
  {
    var e := instance.uuid;
    var done;
    done, ids, made := EntityScheduling(c, at, instance, descriptor);
    if done.Err? {
      ghost var h2 := c.Now();
      c.Publish(instance.(status := ERROR_ENTITY(done.error)));
      StartedPublished(old(c.Now()), h2, c.Now(), old(c.claimed), c.claimed, c.alone, e, made, ids, descriptor.fdus);
      ShownTrans(old(c.trace), h2.trace, c.trace, e, [ONBOARDED, STARTING], [ERROR_ENTITY(done.error)]);
      OnboardedFirst(old(c.trace), old(c.trace), h2.trace, c.trace, descriptor.fdus);
      RefusedPublished(c.origin, c.random, old(c.Now()), h2, c.Now(), c.claimed, c.alone, e, ids, descriptor.fdus,
                       done.error);
    }
  }

  lemma RefusedPublished(origin: World, random: Random, h: History, h1: History, h': History, claimed: set<Uuid>,
                         alone: bool, e: Uuid, ids: seq<Uuid>, fdus: seq<FDUDescriptor>, error: FError)
    requires Steady(h1, h', claimed, alone, {e}) && (alone ==> Calm(h1, h'))
    requires WellFormedRun(h1.trace) ==> Refused(origin, random, h, h1, alone, ids, fdus, error)
    ensures WellFormedRun(h'.trace) ==> Refused(origin, random, h, h', alone, ids, fdus, error)
  {
    if WellFormedRun(h'.trace) {
      WellFormedBefore(h1.trace, h'.trace);
      RefusedLater(origin, random, h, h, h1, h', alone, ids, fdus, error);
    }
  }

  lemma TaskAfterStart(h: History, h1: History, h2: History, claimed: set<Uuid>, alone: bool, e: Uuid, made: set<Uuid>)
    requires Steady(h, h1, claimed, alone, {e}) && Steady(h1, h2, claimed + {e}, alone, made + {e})
    requires made !! h1.world.issued
    ensures Steady(h, h2, claimed, alone, made + {e}) && made !! h.world.issued
  {
    SteadyTrans(h, h1, h2, claimed, claimed + {e}, alone, {e}, made + {e});
    assert {e} + (made + {e}) == made + {e};
  }

  /** How schedule_entity left its new record. */
  ghost predicate ScheduleEnded(h: History, h': History, e: Uuid, entity: Uuid, ids: seq<Uuid>,
                                fdus: seq<FDUDescriptor>) {
    && AllRunning(h'.world, ids, fdus)
    && e in h'.world.entityRecords
    && var rec := h'.world.entityRecords[e];
    match rec.status
    case RUNNING_ENTITY =>
      && rec == EntityRecord(e, entity, RUNNING_ENTITY, ids) && |ids| == |fdus|
      && Shown(h.trace, h'.trace, e, [ONBOARDING, ONBOARDED, STARTING, RUNNING_ENTITY])
    case ERROR_ENTITY(cause) =>
      && rec == EntityRecord(e, entity, ERROR_ENTITY(cause), []) && |ids| < |fdus|
      && Shown(h.trace, h'.trace, e, [ONBOARDING, ONBOARDED, STARTING, ERROR_ENTITY(cause)])
      && cause != MalformedDescriptor
    case _ => false
  }

  lemma ScheduleEndedFrom(h: History, h1: History, h2: History, e: Uuid, entity: Uuid, ids: seq<Uuid>,
                          fdus: seq<FDUDescriptor>)
    requires Shown(h.trace, h1.trace, e, [ONBOARDING])
    requires TaskEnded(h1, h2, EntityRecord(e, entity, ONBOARDING, []), ids, fdus)
    ensures ScheduleEnded(h, h2, e, entity, ids, fdus)
  {
    assert [] + ids == ids;
  }

  // ---------------------------------------------------------------- when scheduling succeeds

  /** The node would accept the descriptor, were it catalogued. */
  ghost predicate Accepts(w: World, n: Uuid, fdu: FDUDescriptor)
    requires fdu.uuid.Some?
  {
    n in w.nodes && CheckFdu(w.(catalog := w.catalog[fdu.uuid.value := fdu]), n, fdu.uuid.value) == Ok(true)
  }

  /** Well-formed FDUs with UUIDs of their own, each of which some node would accept. */
  ghost predicate Schedulable(w: World, fdus: seq<FDUDescriptor>) {
    && AllFilled(fdus) && AllWellFormed(fdus)
    && (forall j, k | 0 <= j < k < |fdus| :: fdus[j].uuid != fdus[k].uuid)
    && (forall k | 0 <= k < |fdus| :: exists n :: Accepts(w, n, fdus[k]))
  }

  /** While at least the first UUIDs and at most the last are in use, no draw for these FDUs is. */
  ghost predicate FreeDraws(random: Random, issued: set<Uuid>, issued': set<Uuid>, fdus: seq<FDUDescriptor>) {
    forall t: set<Uuid> | issued <= t <= issued' ::
      random.uuid(t) !in t && forall k | 0 <= k < |fdus| :: DrawsFree(random, t, fdus[k])
  }

  /** When nobody else acts such FDUs are not refused. */
  lemma NeverRefused(origin: World, random: Random, h: History, h': History, ids: seq<Uuid>, fdus: seq<FDUDescriptor>,
                     error: FError)
    requires Reached(origin, h.trace, h.world) && Reached(origin, h'.trace, h'.world)
    requires SameSetup(h.world, h'.world) && Onboarded(h, h', fdus) && Schedulable(h.world, fdus)
    requires FreeDraws(random, h.world.issued, h'.world.issued, fdus)
    ensures !Refused(origin, random, h, h', true, ids, fdus, error)
  {
    if Refused(origin, random, h, h', true, ids, fdus, error) {
      var fdu := fdus[|ids|];
      assert LastOfId(fdus, |ids|) && CataloguedAs(h'.world.catalog, fdu);
      if error == COLLISION {
        NeverUnlucky(origin, random, h, h', fdus, |ids|);
      } else {
        var n :| Accepts(h.world, n, fdu);
        AcceptsStill(h.world, h'.world, n, fdu);
      }
    }
  }

  lemma NeverUnlucky(origin: World, random: Random, h: History, h': History, fdus: seq<FDUDescriptor>, k: nat)
    requires Reached(origin, h.trace, h.world) && Reached(origin, h'.trace, h'.world)
    requires k < |fdus| && CataloguedAs(h'.world.catalog, fdus[k])
    requires FreeDraws(random, h.world.issued, h'.world.issued, fdus)
    ensures !Unlucky(origin, random, h, h', true, fdus[k].uuid.value)
  {
    forall m: History | Lately(origin, h, m, h', true) ensures !Taken(random, m.world, fdus[k].uuid.value) {
      IssuedLater(origin, h, m);
      IssuedLater(origin, m, h');
    }
  }

  lemma AcceptsStill(w: World, w': World, n: Uuid, fdu: FDUDescriptor)
    requires SameSetup(w, w') && CataloguedAs(w'.catalog, fdu) && Accepts(w, n, fdu)
    ensures !Unaccepted(w', fdu.uuid.value)
  {
    assert n in w'.nodes && CheckFdu(w', n, fdu.uuid.value) == Ok(true);
  }

  /** Such FDUs with free draws run at the end of scheduling, where no descriptor is ill-formed. */
  ghost predicate RunsIfFree(random: Random, h: History, h': History, fdus: seq<FDUDescriptor>, r: Result<Uuid>) {
    WellFormedRun(h.trace) && Schedulable(h.world, fdus)
    && FreeDraws(random, h.world.issued, h'.world.issued, fdus) ==>
      r.Ok? && r.value in h'.world.entityRecords && h'.world.entityRecords[r.value].status == RUNNING_ENTITY
  }

  /** How schedule_entity and its job left the new record e, the catalog and the FDUs. */
  ghost predicate JobLeft(origin: World, random: Random, h: History, h': History, alone: bool, e: Uuid, entity: Uuid,
                          ids: seq<Uuid>, made: set<Uuid>, fdus: seq<FDUDescriptor>) {
    && ScheduleEnded(h, h', e, entity, ids, fdus) && AllOnboarded(h.trace, h'.trace, fdus)
    && (alone ==> Onboarded(h, h', fdus))
    && (alone && h'.world.entityRecords[e].status == RUNNING_ENTITY ==> AloneStarted(h, h', made, ids, fdus))
    && (WellFormedRun(h'.trace) ==> CauseKnown(origin, random, h, h', alone, e, ids, fdus))
  }

  /** When nobody else acts, scheduling an entity of such FDUs with free draws ends RUNNING. */
  lemma ScheduleSucceeds(origin: World, random: Random, h: History, m: History, h': History, entity: Uuid,
                         ids: seq<Uuid>, made: set<Uuid>, fdus: seq<FDUDescriptor>, r: Result<Uuid>)
    requires Reached(origin, h.trace, h.world) && Reached(origin, h'.trace, h'.world)
    requires Moment(origin, h, m, h', true) && r == Named(random, m.world.issued, None)
    requires SameSetup(h.world, h'.world)
    requires r.Ok? ==> JobLeft(origin, random, h, h', true, r.value, entity, ids, made, fdus)
    ensures RunsIfFree(random, h, h', fdus, r)
  {
    if WellFormedRun(h.trace) && Schedulable(h.world, fdus) && FreeDraws(random, h.world.issued, h'.world.issued,
        fdus) {
      IssuedLater(origin, h, m);
      IssuedLater(origin, m, h');
      assert random.uuid(m.world.issued) !in m.world.issued;
      if h'.world.entityRecords[r.value].status.ERROR_ENTITY? {
        NeverRefused(origin, random, h, h', ids, fdus, h'.world.entityRecords[r.value].status.cause);
      }
    }
  }

  /** schedule_entity on node at, with its job run to the end. It fails exactly when the entity is
      not catalogued, or the UUID drawn for the record is in use then. Otherwise the record ends
      RUNNING with an instance for every FDU, or in ERROR with no instances listed, although the FDUs
      before the failing one run; where no descriptor is ill-formed the cause is why that one was
      refused. When nobody else acts it ends RUNNING if for each FDU a node accepts it and the draws
      are free. */
  method ScheduleEntity(c: Cluster, at: Uuid, entity: Uuid)
    returns (r: Result<Uuid>, ghost ids: seq<Uuid>, ghost made: set<Uuid>, ghost m: History)
    requires c.Valid() && at in c.w.nodes
    modifies c
    ensures c.Valid() && old(c.claimed) + made <= c.claimed && (r.Ok? ==> r.value in c.claimed)
    ensures entity !in old(c.w).entities ==> r == Err(NotFound) && c.Now() == old(c.Now())
    ensures entity in old(c.w).entities ==>
        Moment(c.origin, old(c.Now()), m, c.Now(), c.alone) && r == Named(c.random, m.world.issued, None)
    ensures r.Err? ==> made == {}
    ensures r.Err? ==>
        Steady(old(c.Now()), c.Now(), old(c.claimed), c.alone, {}) && (c.alone ==> Calm(old(c.Now()), c.Now()))
    ensures r.Ok? ==> r.value !in old(c.w.issued) && r.value !in made
    ensures r.Ok? ==>
        JobLeft(c.origin, c.random, old(c.Now()), c.Now(), c.alone, r.value, entity, ids, made,
                old(c.w).entities[entity].fdus)
    ensures r.Ok? ==>
        Steady(old(c.Now()), c.Now(), old(c.claimed), c.alone, made + {r.value}) && made !! old(c.w.issued)
    ensures c.alone && entity in old(c.w).entities ==>
        RunsIfFree(c.random, old(c.Now()), c.Now(), old(c.w).entities[entity].fdus, r)
  {
    ids, made, m := [], {}, c.Now();
    if entity !in c.w.entities {
      return Err(NotFound), ids, made, m;
    }
    var descriptor := c.w.entities[entity];
    ReachedFilled(c.origin, c.Now());
    if descriptor.uuid.None? {
      return Err(MalformedDescriptor), ids, made, m;
    }
    r, ids, made, m := ScheduleFound(c, at, entity, descriptor);
  }

  /** schedule_entity after it has read the entity. */
  method ScheduleFound(c: Cluster, at: Uuid, entity: Uuid, descriptor: EntityDescriptor)
    returns (r: Result<Uuid>, ghost ids: seq<Uuid>, ghost made: set<Uuid>, ghost m: History)
    requires c.Valid() && at in c.w.nodes && entity in c.w.entities && descriptor.uuid == Some(entity)
    requires AllFilled(descriptor.fdus)
    modifies c
    ensures c.Valid() && old(c.claimed) + made <= c.claimed && (r.Ok? ==> r.value in c.claimed)
    ensures Moment(c.origin, old(c.Now()), m, c.Now(), c.alone) && r == Named(c.random, m.world.issued, None)
    ensures r.Err? ==> made == {}
    ensures r.Err? ==>
        Steady(old(c.Now()), c.Now(), old(c.claimed), c.alone, {}) && (c.alone ==> Calm(old(c.Now()), c.Now()))
    ensures r.Ok? ==> r.value !in old(c.w.issued) && r.value !in made
    ensures r.Ok? ==>
        JobLeft(c.origin, c.random, old(c.Now()), c.Now(), c.alone, r.value, entity, ids, made, descriptor.fdus)
    ensures r.Ok? ==>
        Steady(old(c.Now()), c.Now(), old(c.claimed), c.alone, made + {r.value}) && made !! old(c.w.issued)
    ensures c.alone ==> RunsIfFree(c.random, old(c.Now()), c.Now(), descriptor.fdus, r)
  {
    ids, made := [], {};
    r, m := StoreRecord(c, entity, descriptor);
    ghost var h1 := c.Now();
    if r.Ok? {
      ids, made := RunTask(c, at, c.w.entityRecords[r.value], descriptor, old(c.Now()), old(c.claimed));
      MomentStays(c.origin, old(c.Now()), m, h1, c.Now(), c.alone);
    }
    if c.alone {
      ScheduleSucceeds(c.origin, c.random, old(c.Now()), m, c.Now(), entity, ids, made, descriptor.fdus, r);
    }
  }

  lemma MomentStays(origin: World, h: History, m: History, h1: History, h': History, alone: bool)
    requires Moment(origin, h, m, h1, alone) && h1.trace <= h'.trace
    ensures Moment(origin, h, m, h', alone)
  {
  }

  /** The spawned job, on the record that was stored since start. */
  method RunTask(c: Cluster, at: Uuid, instance: EntityRecord, descriptor: EntityDescriptor, ghost start: History,
                 ghost claimed: set<Uuid>)
    returns (ghost ids: seq<Uuid>, ghost made: set<Uuid>)
    requires c.Valid() && at in c.w.nodes && Publishable(c.w, instance) && AllFilled(descriptor.fdus)
    requires instance == EntityRecord(instance.uuid, instance.id, ONBOARDING, [])
    requires c.claimed == claimed + {instance.uuid} && Shown(start.trace, c.trace, instance.uuid, [ONBOARDING])
    requires Steady(start, c.Now(), claimed, c.alone, {instance.uuid}) && (c.alone ==> Calm(start, c.Now()))
    modifies c
    ensures c.Valid() && c.claimed == old(c.claimed) + made && instance.uuid !in made
    ensures Steady(start, c.Now(), claimed, c.alone, made + {instance.uuid}) && made !! start.world.issued
    ensures old(c.trace) <= c.trace
    ensures JobLeft(c.origin, c.random, start, c.Now(), c.alone, instance.uuid, instance.id, ids, made, descriptor.fdus)
  {
    ghost var h1 := c.Now();
    ids, made := ScheduleTask(c, at, instance, descriptor);
    TaskAfterStart(start, h1, c.Now(), claimed, c.alone, instance.uuid, made);
    ScheduleEndedFrom(start, h1, c.Now(), instance.uuid, instance.id, ids, descriptor.fdus);
    OnboardedFirst(start.trace, h1.trace, c.trace, c.trace, descriptor.fdus);
    CauseFromStart(c.origin, c.random, start, h1, c.Now(), c.alone, instance.uuid, ids, descriptor.fdus);
    if c.alone { CalmOnboarded(start, h1, c.Now(), descriptor.fdus); }
  }

  lemma CalmOnboarded(h: History, h1: History, h': History, fdus: seq<FDUDescriptor>)
    requires Calm(h, h1) && Onboarded(h1, h', fdus)
    ensures Onboarded(h, h', fdus)
  {
  }

  lemma CauseFromStart(origin: World, random: Random, h: History, h1: History, h': History, alone: bool, e: Uuid,
                       ids: seq<Uuid>, fdus: seq<FDUDescriptor>)
    requires h.trace <= h1.trace
    ensures CauseKnown(origin, random, h1, h', alone, e, ids, fdus) ==>
        CauseKnown(origin, random, h, h', alone, e, ids, fdus)
  {
    if e in h'.world.entityRecords && h'.world.entityRecords[e].status.ERROR_ENTITY? {
      RefusedLater(origin, random, h, h1, h', h', alone, ids, fdus, h'.world.entityRecords[e].status.cause);
    }
  }

  /** The first status of a new record is all that was published for it. */
  lemma FirstStatus(origin: World, h: History, h1: History, h2: History, claimed: set<Uuid>, alone: bool, e: Uuid,
                    status: EntityStatus)
    requires Reached(origin, h.trace, h.world) && Reached(origin, h1.trace, h1.world) && e !in h1.world.issued
    requires Steady(h, h1, claimed, alone, {}) && Steady(h1, h2, claimed, alone, {e})
    requires Shown(h1.trace, h2.trace, e, [status])
    ensures Steady(h, h2, claimed, alone, {e}) && Shown(h.trace, h2.trace, e, [status])
  {
    UndrawnSilent(origin, h, e);
    UndrawnSilent(origin, h1, e);
    SteadyWiden(h, h1, claimed, alone, {}, {e});
    SteadyAgain(h, h1, h2, claimed, claimed, alone, {e});
  }

  /** The record of a new entity instance, stored under a drawn UUID after others have acted. */
  method StoreRecord(c: Cluster, entity: Uuid, descriptor: EntityDescriptor)
    returns (r: Result<Uuid>, ghost m: History)
    requires c.Valid() && entity in c.w.entities && descriptor.uuid == Some(entity)
    modifies c
    ensures c.Valid() && old(c.w.issued) <= c.w.issued
    ensures Moment(c.origin, old(c.Now()), m, c.Now(), c.alone) && r == Named(c.random, m.world.issued, None)
    ensures r.Err? ==> c.claimed == old(c.claimed)
    ensures r.Ok? ==> c.claimed == old(c.claimed) + {r.value} && r.value !in old(c.w.issued)
    ensures r.Ok? ==>
        r.value in c.w.entityRecords && c.w.entityRecords[r.value] == EntityRecord(r.value, entity, ONBOARDING, [])
    ensures r.Ok? ==> Shown(old(c.trace), c.trace, r.value, [ONBOARDING])
    ensures Steady(old(c.Now()), c.Now(), old(c.claimed), c.alone, if r.Ok? then {r.value} else {})
    ensures c.alone ==> Calm(old(c.Now()), c.Now())
  {
    c.OpenThenWait(ToInstantiate(entity));
    m := c.Now();
    r := StoreDrawn(c, entity, old(c.Now()));
  }

  /** The draw, and the put if it is not in use. */
  method StoreDrawn(c: Cluster, entity: Uuid, ghost start: History) returns (r: Result<Uuid>)
    requires c.Valid() && ToInstantiate(entity) in c.kept && Reached(c.origin, start.trace, start.world)
    requires Steady(start, c.Now(), c.claimed, c.alone, {}) && (c.alone ==> Calm(start, c.Now()))
    modifies c
    ensures c.Valid() && old(c.trace) <= c.trace
    ensures r == Named(c.random, old(c.w).issued, None)
    ensures r.Err? ==> c.claimed == old(c.claimed)
    ensures r.Ok? ==> c.claimed == old(c.claimed) + {r.value}
    ensures r.Ok? ==>
        r.value in c.w.entityRecords && c.w.entityRecords[r.value] == EntityRecord(r.value, entity, ONBOARDING, [])
    ensures r.Ok? ==> Shown(start.trace, c.trace, r.value, [ONBOARDING])
    ensures Steady(start, c.Now(), old(c.claimed), c.alone, if r.Ok? then {r.value} else {})
    ensures c.alone ==> Calm(start, c.Now())
  {
    r := Named(c.random, c.w.issued, None);
    if r.Err? {
      c.DropLater(ToInstantiate(entity), start);
    } else {
      RecordUndrawn(c.origin, c.Now(), r.value);
      StoreUnder(c, EntityRecord(r.value, entity, ONBOARDING, []), start);
    }
  }

  lemma RecordUndrawn(origin: World, h: History, e: Uuid)
    requires Reached(origin, h.trace, h.world) && e !in h.world.issued
    ensures e !in h.world.entityRecords
  {
    ReachedIdsApart(origin, h.trace, h.world);
  }

  method StoreUnder(c: Cluster, rec: EntityRecord, ghost start: History)
    requires c.Valid() && Enabled(c.w, Instantiate(rec)) && ToInstantiate(rec.id) in c.kept
    requires Steady(start, c.Now(), c.claimed, c.alone, {}) && Reached(c.origin, start.trace, start.world)
    modifies c
    ensures c.Valid() && c.claimed == old(c.claimed) + {rec.uuid}
    ensures rec.uuid in c.w.entityRecords && c.w.entityRecords[rec.uuid] == rec
    ensures Shown(start.trace, c.trace, rec.uuid, [rec.status])
    ensures Steady(start, c.Now(), old(c.claimed), c.alone, {rec.uuid}) && Calm(old(c.Now()), c.Now())
    ensures old(c.trace) <= c.trace
  {
    ghost var before := c.Now();
    c.Instantiate(rec);
    FirstStatus(c.origin, start, before, c.Now(), old(c.claimed), c.alone, rec.uuid, rec.status);
  }

  lemma ReachedFilled(origin: World, h: History)
    requires Reached(origin, h.trace, h.world)
    ensures EntitiesFilled(h.world)
  {
    RunKeepsFilled(origin, h.trace);
  }
}
