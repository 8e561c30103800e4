/** Where an operation is called does not matter, except for undefine; and what that does to the
    clients that delete an instance through a node of their choice. */
module Location {
  import opened Model
  import opened Protocol
  import opened Runs
  import opened Resources
  import opened Calls
  import opened AgentSteps
  import opened Agent
  import opened Entities
  import opened Descheduling

  // ---------------------------------------------------------------- a call and its poll

  /** The world once node n has delivered its messages up to the one about i. */
  ghost function Delivered(w: World, n: Uuid, i: Uuid): (w': World)
    requires Structure(w) && Coherent(w) && n in w.nodes
    ensures Structure(w') && Coherent(w') && w'.inflight == w.inflight && w'.nodes.Keys == w.nodes.Keys
    ensures w'.nodes[n].local == w.nodes[n].local && Rank(w'.nodes[n].fifo, i) == 0
    decreases Rank(w.nodes[n].fifo, i)
  {
    if Rank(w.nodes[n].fifo, i) == 0 then w
    else
      OneDelivered(w, n, i);
      Delivered(Next(w, Deliver(n)), n, i)
  }

  lemma OneDelivered(w: World, n: Uuid, i: Uuid)
    requires Structure(w) && Coherent(w) && n in w.nodes && Rank(w.nodes[n].fifo, i) > 0
    ensures Enabled(w, Deliver(n)) && Structure(Next(w, Deliver(n))) && Coherent(Next(w, Deliver(n)))
    ensures var w' := Next(w, Deliver(n));
      && w'.inflight == w.inflight && w'.nodes.Keys == w.nodes.Keys && w'.nodes[n].local == w.nodes[n].local
      && Rank(w'.nodes[n].fifo, i) < Rank(w.nodes[n].fifo, i)
  {
    StepKeepsStructure(w, Deliver(n));
    StepKeepsCoherent(w, Deliver(n));
    DeliverRank(w, n, i);
  }

  lemma CalledWell(w: World, n: Uuid, op: PluginOp, i: Uuid)
    requires Callable(w, n, op, i)
    ensures Structure(Next(w, PluginCall(n, op, i))) && Coherent(Next(w, PluginCall(n, op, i)))
  {
    StepKeepsStructure(w, PluginCall(n, op, i));
    StepKeepsCoherent(w, PluginCall(n, op, i));
  }

  lemma RemovalReady(w: World, i: Uuid)
    requires Coherent(w) && i in w.inflight && w.inflight[i].Removing?
    ensures Enabled(w, RemoveRecord(i))
  {
    assert InstanceOk(w, i);
  }

  lemma ReturnReady(w: World, n: Uuid, i: Uuid)
    requires Structure(w) && Coherent(w) && n in w.nodes && i in w.inflight && w.inflight[i].Await?
    requires w.inflight[i].home == n
    ensures i in w.nodes[n].local && Enabled(Delivered(w, n, i), Return(i))
    ensures Delivered(w, n, i).records[i] == w.nodes[n].local[i]
  {
    PollSees(Delivered(w, n, i), n, i, w.inflight[i].status);
  }

  /** The poll of a call in flight: the world that it leaves and the record that it returns. */
  ghost function Polled(w: World, n: Uuid, i: Uuid): (r: (World, Result<FDURecord>))
    requires Structure(w) && Coherent(w) && n in w.nodes && i in w.inflight && w.inflight[i].Await?
    requires w.inflight[i].home == n
    ensures i in w.nodes[n].local && r.1 == Ok(w.nodes[n].local[i])
  {
    ReturnReady(w, n, i);
    var w' := Delivered(w, n, i);
    (Next(w', Return(i)), Ok(w'.records[i]))
  }

  /** The owner's plugin call together with its poll, or with the removal of the global record: the
      world that it leaves and its answer. */
  ghost function Carried(w: World, n: Uuid, op: PluginOp, i: Uuid): (World, Result<FDURecord>)
    requires Callable(w, n, op, i)
  {
    CalledWell(w, n, op, i);
    Followed(w, Next(w, PluginCall(n, op, i)), n, op, i, Apply(w.nodes[n], w.catalog, op, i).1)
  }

  /** What follows the plugin's answer, from the world w1 that its call left. */
  ghost function Followed(w: World, w1: World, n: Uuid, op: PluginOp, i: Uuid, answer: Result<Uuid>)
    : (r: (World, Result<FDURecord>))
    requires Structure(w1) && Coherent(w1) && n in w1.nodes && i in w.records
    requires answer.Ok? ==> i in w1.inflight && w1.inflight[i] == CallAfter(n, op)
    ensures answer.Ok? && !op.Undefine? ==> i in w1.nodes[n].local && r.1 == Ok(w1.nodes[n].local[i])
    ensures answer.Err? ==> r.1 == Err(answer.error)
  {
    if answer.Err? then (w1, Err(answer.error))
    else if op.Undefine? then
      RemovalReady(w1, i);
      (Next(w1, RemoveRecord(i)), Ok(w.records[i]))
    else Polled(w1, n, i)
  }

  // ---------------------------------------------------------------- a request on any node

  ghost function ServiceNode(w: World, service: Uuid): Option<Uuid> {
    if exists n :: n in w.infos && w.infos[n].agentServiceUuid == service then
      var n :| n in w.infos && w.infos[n].agentServiceUuid == service; Some(n)
    else None
  }

  lemma ServiceIsOwner(w: World, n: Uuid)
    requires Routed(w) && n in w.infos
    ensures ServiceNode(w, w.infos[n].agentServiceUuid) == Some(n)
  {
  }

  /** What the owner is asked to do: the remote branch of undefine_fdu asks for a clean. */
  function Forwarded(op: PluginOp): PluginOp {
    if op.Undefine? then Clean else op
  }

  ghost predicate Sound(w: World) {
    Structure(w) && Coherent(w) && Routed(w)
  }

  /** The owner's part of a request. */
  ghost function AtOwner(w: World, op: PluginOp, i: Uuid): (World, Result<FDURecord>)
    requires Structure(w) && Coherent(w) && i !in w.inflight && i in w.records && w.records[i].node in w.nodes
  {
    var owner := w.records[i].node;
    if !Hosted(w, owner, w.records[i].fduUuid) then (w, Err(NotFound))
    else if !DrawsAllowed(w, owner, op, i) then (w, Err(COLLISION))
    else Carried(w, owner, op, i)
  }

  lemma OwnerExists(w: World, i: Uuid)
    requires Structure(w) && i in w.records
    ensures w.records[i].node in w.nodes
  {
  }

  lemma OwnerServes(w: World, i: Uuid)
    requires Structure(w) && Routed(w) && i in w.records
    ensures var owner := w.records[i].node;
      owner in w.nodes && owner in w.infos && ServiceNode(w, w.infos[owner].agentServiceUuid) == Some(owner)
  {
    ServiceIsOwner(w, w.records[i].node);
  }

  /** A request on node at for an instance with no call in flight: the world that it leaves, its
      answer, and how often it was forwarded. */
  ghost function Request(w: World, at: Uuid, op: PluginOp, i: Uuid): (World, Result<FDURecord>, nat)
    requires Sound(w) && at in w.nodes && i !in w.inflight
    decreases if i in w.records && w.records[i].node == at then 0 else 1
  {
    if i !in w.records then (w, Err(NotFound), 0)
    else
      OwnerServes(w, i);
      var owner := w.records[i].node;
      if owner == at then
        var (w', r) := AtOwner(w, op, i);
        (w', r, 0)
      else
        match ServiceNode(w, w.infos[owner].agentServiceUuid)
        case Some(n) =>
          var (w', r, hops) := Request(w, n, Forwarded(op), i);
          (w', r, hops + 1)
  }

  /** Configure, start, stop and clean leave the same world with the same answer on any node as on
      the owner, forwarded at most once; and an undefine away from the owner does what a clean at the
      owner does. */
  lemma LocationTransparency(w: World, at: Uuid, op: PluginOp, i: Uuid)
    requires Sound(w) && at in w.nodes && i !in w.inflight && i in w.records
    ensures var owner := w.records[i].node;
      && owner in w.nodes
      && var (here, there) := (Request(w, at, op, i), Request(w, owner, if at == owner then op else Forwarded(op), i));
      here.0 == there.0 && here.1 == there.1 && here.2 == if at == owner then 0 else 1
  {
    OwnerExists(w, i);
    RequestAtOwner(w, at, op, i);
    RequestAtOwner(w, w.records[i].node, if at == w.records[i].node then op else Forwarded(op), i);
  }

  /** The agents' start, stop and clean return this answer, wherever they are called, when nobody else
      acts. */
  lemma RequestAnswers(origin: World, random: Random, h: History, m: Moments, h': History, at: Uuid, v: Verb, i: Uuid,
                       r: Result<FDURecord>)
    requires Reached(origin, h.trace, h.world) && WellFormedRun(h'.trace) && h.trace <= h'.trace
    requires v != CONFIGURE && i !in h.world.inflight && at in h.world.nodes
    requires Operated(origin, random, h, m, h', true, v, i, r)
    ensures Sound(h.world) && Request(h.world, at, OpOf(v), i).1 == r
  {
    ReachedFacts(origin, h.trace, h.world);
    RequestAnswer(h.world, at, OpOf(v), i);
    if i in h.world.records { OwnerAgrees(origin, random, h, m, h', v, i, r); }
  }

  lemma RequestAnswer(w: World, at: Uuid, op: PluginOp, i: Uuid)
    requires Sound(w) && at in w.nodes && i !in w.inflight && !op.Undefine?
    ensures i in w.records ==> w.records[i].node in w.nodes
    ensures Request(w, at, op, i).1 == if i in w.records then AtOwner(w, op, i).1 else Err(NotFound)
  {
    if i in w.records { RequestAtOwner(w, at, op, i); }
  }

  lemma OwnerAgrees(origin: World, random: Random, h: History, m: Moments, h': History, v: Verb, i: Uuid,
                    r: Result<FDURecord>)
    requires Reached(origin, h.trace, h.world) && WellFormedRun(h'.trace) && h.trace <= h'.trace && v != CONFIGURE
    requires Structure(h.world) && Coherent(h.world) && i !in h.world.inflight && i in h.world.records
    requires h.world.records[i].node in h.world.nodes
    requires Operated(origin, random, h, m, h', true, v, i, r)
    ensures AtOwner(h.world, OpOf(v), i).1 == r
  {
    WellFormedBefore(h.trace, h'.trace);
    OperatedAlone(origin, random, h, m, h', v, i, r);
    OwnerAnswers(origin, h, v, i);
    SameAnswer(h.world.catalog, v, h.world.records[i], r, AtOwner(h.world, OpOf(v), i).1);
  }

  lemma RequestAtOwner(w: World, at: Uuid, op: PluginOp, i: Uuid)
    requires Sound(w) && at in w.nodes && i !in w.inflight && i in w.records
    ensures w.records[i].node in w.nodes
    ensures var (w', r, hops) := Request(w, at, op, i);
      (w', r) == AtOwner(w, if w.records[i].node == at then op else Forwarded(op), i)
      && hops == if w.records[i].node == at then 0 else 1
  {
    ServiceIsOwner(w, w.records[i].node);
  }

  /** A result follows from what the plugin makes of the record. */
  ghost predicate Decided(catalog: map<Uuid, FDUDescriptor>, v: Verb, rec: FDURecord, r: Result<FDURecord>) {
    && (r.Ok? ==> PluginRefusal(catalog, v, rec) == None && Produced(catalog, v, rec, r.value))
    && (r.Err? ==> PluginRefusal(catalog, v, rec) == Some(r.error))
  }

  lemma SameAnswer(catalog: map<Uuid, FDUDescriptor>, v: Verb, rec: FDURecord, r: Result<FDURecord>,
                   r': Result<FDURecord>)
    requires v != CONFIGURE
    ensures Decided(catalog, v, rec, r) && Decided(catalog, v, rec, r') ==> r == r'
  {
  }

  /** When nobody else acts nothing changes between the reads and the plugin call. */
  lemma OperatedAlone(origin: World, random: Random, h: History, m: Moments, h': History, v: Verb, i: Uuid,
                      r: Result<FDURecord>)
    requires WellFormedRun(h'.trace) && v != CONFIGURE && i in h.world.records
    requires Operated(origin, random, h, m, h', true, v, i, r)
    ensures var rec := h.world.records[i];
      if Hosted(h.world, rec.node, rec.fduUuid) then Decided(h.world.catalog, v, rec, r) else r == Err(NotFound)
  {
  }

  lemma OwnerAnswers(origin: World, h: History, v: Verb, i: Uuid)
    requires Reached(origin, h.trace, h.world) && WellFormedRun(h.trace) && v != CONFIGURE
    requires Structure(h.world) && Coherent(h.world) && i !in h.world.inflight && i in h.world.records
    requires h.world.records[i].node in h.world.nodes
    ensures var rec, r := h.world.records[i], AtOwner(h.world, OpOf(v), i).1;
      if Hosted(h.world, rec.node, rec.fduUuid) then Decided(h.world.catalog, v, rec, r) else r == Err(NotFound)
  {
    if Hosted(h.world, h.world.records[i].node, h.world.records[i].fduUuid) { CarriedAnswers(origin, h, v, i); }
  }

  /** The answer of a call that is polled: the plugin's error, or the record that it wrote. */
  lemma CarriedRecord(w: World, n: Uuid, op: PluginOp, i: Uuid)
    requires Callable(w, n, op, i) && !op.Undefine?
    ensures var (m, answer) := Apply(w.nodes[n], w.catalog, op, i);
      && (answer.Ok? ==> i in m.local)
      && Carried(w, n, op, i).1 == if answer.Ok? then Ok(m.local[i]) else Err(answer.error)
  {
    CarriedFollows(w, n, op, i);
    AfterCall(w, n, op, i);
  }

  lemma CarriedFollows(w: World, n: Uuid, op: PluginOp, i: Uuid)
    requires Callable(w, n, op, i)
    ensures var (w1, answer) := (Next(w, PluginCall(n, op, i)), Apply(w.nodes[n], w.catalog, op, i).1);
      && Structure(w1) && Coherent(w1) && n in w1.nodes && i in w.records
      && (answer.Ok? ==> i in w1.inflight && w1.inflight[i] == CallAfter(n, op))
      && Carried(w, n, op, i) == Followed(w, w1, n, op, i, answer)
  {
    CalledWell(w, n, op, i);
  }

  lemma AfterCall(w: World, n: Uuid, op: PluginOp, i: Uuid)
    requires Enabled(w, PluginCall(n, op, i))
    ensures n in Next(w, PluginCall(n, op, i)).nodes
    ensures Next(w, PluginCall(n, op, i)).nodes[n] == Apply(w.nodes[n], w.catalog, op, i).0
  {
  }

  /** The owner's answer: the plugin's reason to refuse, or the record that the call must produce. */
  lemma CarriedAnswers(origin: World, h: History, v: Verb, i: Uuid)
    requires Reached(origin, h.trace, h.world) && WellFormedRun(h.trace) && v != CONFIGURE
    requires i in h.world.records && Callable(h.world, h.world.records[i].node, OpOf(v), i)
    ensures Decided(h.world.catalog, v, h.world.records[i], Carried(h.world, h.world.records[i].node, OpOf(v), i).1)
  {
    var w, n := h.world, h.world.records[i].node;
    ReachedConserved(origin, h.trace, w);
    LifecycleAnswer(w, n, v, OpOf(v), i);
    CarriedRecord(w, n, OpOf(v), i);
  }

  // ---------------------------------------------------------------- undefine

  lemma NotError(w: World, i: Uuid)
    requires Structure(w) && i in w.records
    ensures !w.records[i].status.ERROR?
  {
    assert TidyRecord(w.records[i], i, w.records[i].node, w.issued);
  }

  /** A call that the instance's status refuses changes nothing. */
  lemma RefusedChangesNothing(w: World, n: Uuid, op: PluginOp, i: Uuid)
    requires Callable(w, n, op, i) && (op.Clean? || op.Undefine?)
    requires w.records[i].status != if op.Clean? then CONFIGURED else DEFINED
    ensures Carried(w, n, op, i) == (w, Err(TransitionNotAllowed))
  {
    QuietRecord(w, i);
    assert Next(w, PluginCall(n, op, i)).nodes == w.nodes;
  }

  lemma CleanAnswered(w: World, n: Uuid, i: Uuid)
    requires Callable(w, n, Clean, i) && AllConserved(w)
    ensures Carried(w, n, Clean, i).1.Ok? <==> w.records[i].status == CONFIGURED
  {
    CarriedRecord(w, n, Clean, i);
    LifecycleAnswer(w, n, CLEAN, Clean, i);
  }

  lemma UndefineAnswered(w: World, n: Uuid, i: Uuid)
    requires Callable(w, n, Undefine, i)
    ensures Carried(w, n, Undefine, i).1.Ok? <==> w.records[i].status == DEFINED
  {
    UndefineAnswer(w, n, i);
  }

  /** For an instance at rest, an undefine away from the owner leaves the same world with the same
      answer as one at the owner exactly when neither could succeed: the descriptor is not hosted
      there, or the instance runs. */
  lemma UndefineElsewhereSameIff(w: World, at: Uuid, i: Uuid)
    requires Sound(w) && AllConserved(w) && i !in w.inflight
    requires at in w.nodes && i in w.records && w.records[i].node != at
    ensures var owner := w.records[i].node;
      && owner in w.nodes
      && var (here, there) := (Request(w, at, Undefine, i), Request(w, owner, Undefine, i));
      (here.0 == there.0 && here.1 == there.1)
      <==> !Hosted(w, owner, w.records[i].fduUuid) || w.records[i].status == RUNNING
  {
    OwnerExists(w, i);
    RequestAtOwner(w, at, Undefine, i);
    RequestAtOwner(w, w.records[i].node, Undefine, i);
    UndefineLikeCleanIff(w, i);
  }

  /** The owner does the same for a clean as for an undefine exactly when both are refused alike. */
  lemma UndefineLikeCleanIff(w: World, i: Uuid)
    requires Structure(w) && Coherent(w) && AllConserved(w) && i !in w.inflight && i in w.records
    requires w.records[i].node in w.nodes
    ensures AtOwner(w, Clean, i) == AtOwner(w, Undefine, i)
       <==> !Hosted(w, w.records[i].node, w.records[i].fduUuid) || w.records[i].status == RUNNING
  {
    if Hosted(w, w.records[i].node, w.records[i].fduUuid) {
      AtOwnerCalls(w, Clean, i);
      AtOwnerCalls(w, Undefine, i);
      CarriedAlikeIff(w, w.records[i].node, i);
    }
  }

  lemma AtOwnerCalls(w: World, op: PluginOp, i: Uuid)
    requires Structure(w) && Coherent(w) && i !in w.inflight && i in w.records && w.records[i].node in w.nodes
    requires Hosted(w, w.records[i].node, w.records[i].fduUuid) && !op.Configure?
    ensures Callable(w, w.records[i].node, op, i) && AtOwner(w, op, i) == Carried(w, w.records[i].node, op, i)
  {
  }

  lemma CarriedAlikeIff(w: World, n: Uuid, i: Uuid)
    requires Callable(w, n, Clean, i) && Callable(w, n, Undefine, i) && AllConserved(w)
    ensures Carried(w, n, Clean, i) == Carried(w, n, Undefine, i) <==> w.records[i].status == RUNNING
  {
    NotError(w, i);
    CleanAnswered(w, n, i);
    UndefineAnswered(w, n, i);
    if w.records[i].status == RUNNING {
      RefusedChangesNothing(w, n, Clean, i);
      RefusedChangesNothing(w, n, Undefine, i);
    }
  }

  /** The agents' undefine returns what the request answers, on the owner and elsewhere, when nobody else
      acts. */
  lemma UndefineRequestAnswers(origin: World, random: Random, h: History, m: Moments, h': History, at: Uuid, i: Uuid,
                               r: Result<FDURecord>)
    requires Reached(origin, h.trace, h.world) && WellFormedRun(h'.trace) && h.trace <= h'.trace
    requires i !in h.world.inflight && at in h.world.nodes
    requires i !in h.world.records || h.world.records[i].node == at ==>
        Undefined(origin, h, m.read, h', true, i, r)
    requires i in h.world.records && h.world.records[i].node != at ==>
        Operated(origin, random, h, m, h', true, CLEAN, i, r)
    ensures Sound(h.world) && Request(h.world, at, Undefine, i).1 == r
  {
    ReachedFacts(origin, h.trace, h.world);
    if i in h.world.records {
      OwnerExists(h.world, i);
      RequestAtOwner(h.world, at, Undefine, i);
      if h.world.records[i].node == at {
        OwnerUndefines(h.world, i);
      } else {
        OwnerAgrees(origin, random, h, m, h', CLEAN, i, r);
      }
    }
  }

  /** The owner's answer to an undefine. */
  lemma OwnerUndefines(w: World, i: Uuid)
    requires Structure(w) && Coherent(w) && i !in w.inflight && i in w.records && w.records[i].node in w.nodes
    ensures AtOwner(w, Undefine, i).1
      == if !Hosted(w, w.records[i].node, w.records[i].fduUuid) then Err(NotFound)
         else if w.records[i].status == DEFINED then Ok(w.records[i])
         else Err(TransitionNotAllowed)
  {
    if Hosted(w, w.records[i].node, w.records[i].fduUuid) {
      AtOwnerCalls(w, Undefine, i);
      UndefineAnswer(w, w.records[i].node, i);
    }
  }

  // ---------------------------------------------------------------- deleting an instance

  /** The clients' delete: stop, clean and undefine, all sent to the agent of one node. Where no
      descriptor is ill-formed it deletes the instance only if that node is the owner. When nobody else
      acts and the instance runs and can be operated, it deletes it exactly when the node is the owner;
      otherwise it ends in TransitionNotAllowed with the instance left DEFINED. */
  method DeleteInstance(c: Cluster, at: Uuid, i: Uuid) returns (r: Result<FDURecord>)
    requires c.Valid() && at in c.w.nodes && i in c.claimed && i in c.w.records && i !in c.w.inflight
    modifies c
    ensures c.Valid() && c.claimed == old(c.claimed)
    ensures Steady(old(c.Now()), c.Now(), c.claimed, c.alone, {i}) && (c.alone ==> Calm(old(c.Now()), c.Now()))
    ensures WellFormedRun(c.trace) && r.Ok? ==> old(c.w).records[i].node == at && Erased(c.w, i)
    ensures WellFormedRun(c.trace) && r.Err? ==>
        DeleteFails(c.origin, old(c.Now()), c.Now(), c.alone, at, old(c.w).records[i], r.error)
    ensures c.alone && WellFormedRun(c.trace) && Stoppable(old(c.w), i) ==>
      if old(c.w).records[i].node == at then r.Ok?
      else r == Err(TransitionNotAllowed) && i !in c.w.inflight && i in c.w.records && c.w.records[i].status == DEFINED
  {
    RestingRecord(c.origin, c.Now(), i);
    var instance := c.w.records[i];
    var cleaned := StopAndClean(c, at, i, instance);
    ghost var h2 := c.Now();
    if cleaned.Err? {
      return cleaned;
    }
    r := UndefineCleaned(c, at, i, cleaned.value);
    SteadyAgain(old(c.Now()), h2, c.Now(), c.claimed, c.claimed, c.alone, {i});
    if r.Err? && WellFormedRun(c.trace) {
      LaterDeleteFails(c.origin, old(c.Now()), h2, c.Now(), c.alone, at, instance, cleaned.value, r.error);
    }
  }

  /** Why a delete through node at fails: the instance cannot be stopped, cleaned and undefined, or the node
      is not its owner. */
  ghost predicate DeleteFails(origin: World, h: History, h': History, alone: bool, at: Uuid, rec: FDURecord,
                              error: FError) {
    StopFails(origin, h, h', alone, rec, error) || (error == TransitionNotAllowed && rec.node != at)
  }

  lemma LaterDeleteFails(origin: World, h: History, h1: History, h': History, alone: bool, at: Uuid, rec: FDURecord,
                         rec1: FDURecord, error: FError)
    requires UndefineFails(origin, h1, h', alone, at, rec1, error) && h.trace <= h1.trace
    requires SameInstance(rec, rec1, DEFINED)
    ensures DeleteFails(origin, h, h', alone, at, rec, error)
  {
    if error == NotFound { CleanedFails(origin, h, h1, h', alone, rec, rec1, error); }
  }

  /** Why an undefine of a DEFINED instance through node at fails. */
  ghost predicate UndefineFails(origin: World, h: History, h': History, alone: bool, at: Uuid, rec: FDURecord,
                                error: FError) {
    || (error == NotFound && Unhosted(origin, h, h', alone, rec.node, rec.fduUuid))
    || (error == TransitionNotAllowed && rec.node != at)
  }

  /** Others act, then a DEFINED instance is undefined through node at. */
  method UndefineCleaned(c: Cluster, at: Uuid, i: Uuid, ghost rec: FDURecord) returns (r: Result<FDURecord>)
    requires c.Valid() && at in c.w.nodes && i in c.claimed && AtRest(c.w, i, rec) && rec.status == DEFINED
    modifies c
    ensures c.Valid() && c.claimed == old(c.claimed)
    ensures Steady(old(c.Now()), c.Now(), c.claimed, c.alone, {i}) && (c.alone ==> Calm(old(c.Now()), c.Now()))
    ensures WellFormedRun(c.trace) && r.Ok? ==> rec.node == at && Erased(c.w, i)
    ensures WellFormedRun(c.trace) && r.Err? ==>
        UndefineFails(c.origin, old(c.Now()), c.Now(), c.alone, at, rec, r.error)
    ensures c.alone && WellFormedRun(c.trace) && Hosted(old(c.w), rec.node, rec.fduUuid) ==>
      if rec.node == at then r.Ok? else r == Err(TransitionNotAllowed) && AtRest(c.w, i, rec)
  {
    if c.w.records[i].node == at {
      r := Erase(c, at, i, rec);
    } else {
      c.Others();
      ghost var waited := c.Now();
      RestWaited(old(c.Now()), waited, c.claimed, c.alone, i, rec);
      ghost var m;
      r, m := c.UndefineFdu(at, i);
      NeverCleanedTwice(c.origin, c.random, old(c.Now()), waited, m, c.Now(), c.claimed, c.alone, i, rec, r);
      CleanElsewhereFails(c.origin, c.random, old(c.Now()), waited, m, c.Now(), c.alone, at, i, rec, r);
      WaitedThen(old(c.Now()), waited, c.Now(), c.claimed, c.alone, {i});
    }
  }

  lemma CleanElsewhereFails(origin: World, random: Random, h: History, h1: History, m: Moments, h2: History,
                            alone: bool, at: Uuid, i: Uuid, rec: FDURecord, r: Result<FDURecord>)
    requires AtRest(h1.world, i, rec) && h.trace <= h1.trace && rec.status == DEFINED && rec.node != at
    requires Operated(origin, random, h1, m, h2, alone, CLEAN, i, r) && SameSetup(h1.world, h2.world)
    requires alone ==> Calm(h1, h2)
    ensures WellFormedRun(h2.trace) && r.Err? ==> UndefineFails(origin, h, h2, alone, at, rec, r.error)
  {
    if WellFormedRun(h2.trace) && r.Err? { OperationFails(origin, random, h, h1, m, h2, alone, CLEAN, i, rec, r); }
  }

  /** A clean of a DEFINED instance is refused. */
  lemma NeverCleanedTwice(origin: World, random: Random, h: History, h1: History, m: Moments, h2: History,
                          claimed: set<Uuid>, alone: bool, i: Uuid, rec: FDURecord, r: Result<FDURecord>)
    requires Waited(h, h1, claimed, alone) && AtRest(h1.world, i, rec) && rec.status == DEFINED
    requires Operated(origin, random, h1, m, h2, alone, CLEAN, i, r)
    ensures WellFormedRun(h2.trace) ==> r.Err?
    ensures alone && WellFormedRun(h2.trace) && Hosted(h.world, rec.node, rec.fduUuid) ==>
        r == Err(TransitionNotAllowed) && AtRest(h2.world, i, rec)
  {
    if alone && WellFormedRun(h2.trace) {
      OperatedAlone(origin, random, h1, m, h2, CLEAN, i, r);
    }
    if r.Err? { RestHeld(h1.world, h2.world, i, rec); }
  }
}
