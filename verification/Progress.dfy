/** Nothing gets stuck: every call in flight can complete, every operation that is not refused can
    be carried out, and a hosted descriptor can be brought to a running instance. */
module Progress {
  import opened Model
  import opened Hypervisor
  import opened Conservation
  import opened Protocol
  import opened Replication
  import opened Resources
  import opened Calls
  import opened AgentSteps

  lemma {:induction false} ReachedMore(origin: World, h: History, ls: seq<Label>)
    requires Reached(origin, h.trace, h.world) && Legal(h.world, ls) && SerialRun(h.world, ls)
    ensures Reached(origin, h.trace + ls, Exec(h.world, ls))
    decreases |ls|
  {
    if ls == [] {
      assert h.trace + ls == h.trace;
    } else {
      assert h.trace + ls == h.trace + [ls[0]] + ls[1..];
      var h1 := History(Next(h.world, ls[0]), h.trace + [ls[0]]);
      ReachedStep(origin, h, ls[0]);
      ReachedMore(origin, h1, ls[1..]);
    }
  }

  lemma {:induction false} DeliveriesKeepStores(w: World, ls: seq<Label>)
    requires Legal(w, ls) && OnlyDeliveries(ls)
    ensures var w' := Exec(w, ls);
      && w'.nodes.Keys == w.nodes.Keys && w'.catalog == w.catalog && w'.plugins == w.plugins && w'.issued == w.issued
      && forall n | n in w.nodes :: w'.nodes[n].local == w.nodes[n].local
    decreases |ls|
  {
    if ls != [] {
      assert ls[0] in ls && forall l | l in ls[1..] :: l in ls;
      DeliveriesKeepStores(Next(w, ls[0]), ls[1..]);
    }
  }

  /** The catalog, the plugins and the drawn UUIDs are the same. */
  ghost predicate SameGround(w: World, w': World) {
    w'.catalog == w.catalog && w'.plugins == w.plugins && w'.issued == w.issued && w'.nodes.Keys == w.nodes.Keys
  }

  /** A stretch of deliveries: still a serialised run, with calls and local stores as before. */
  lemma DeliveriesReach(origin: World, h: History, more: seq<Label>) returns (h': History)
    requires Reached(origin, h.trace, h.world) && Legal(h.world, more) && OnlyDeliveries(more)
    ensures h' == History(Exec(h.world, more), h.trace + more) && Reached(origin, h'.trace, h'.world)
    ensures SameGround(h.world, h'.world) && h'.world.inflight == h.world.inflight
    ensures forall n | n in h.world.nodes :: h'.world.nodes[n].local == h.world.nodes[n].local
    ensures WellFormedRun(h.trace) ==> WellFormedRun(h'.trace)
  {
    DeliveriesSerial(h.world, more);
    DeliveriesKeepCalls(h.world, more);
    DeliveriesKeepStores(h.world, more);
    ReachedMore(origin, h, more);
    h' := History(Exec(h.world, more), h.trace + more);
  }

  /** Deliveries alone make a waiting call's status readable. */
  lemma CallReady(origin: World, h: History, i: Uuid) returns (h': History)
    requires Reached(origin, h.trace, h.world) && i in h.world.inflight && h.world.inflight[i].Await?
    ensures Reached(origin, h'.trace, h'.world) && Enabled(h'.world, Return(i))
    ensures SameGround(h.world, h'.world) && h'.world.inflight == h.world.inflight
    ensures forall n | n in h.world.nodes :: h'.world.nodes[n].local == h.world.nodes[n].local
    ensures WellFormedRun(h.trace) ==> WellFormedRun(h'.trace)
  {
    PollCanComplete(origin, h.trace, i);
    var more :| Legal(h.world, more) && OnlyDeliveries(more) && Enabled(Exec(h.world, more), Return(i));
    h' := DeliveriesReach(origin, h, more);
  }

  /** The return of a ready call. */
  lemma ReturnCompletes(origin: World, h: History, n: Uuid, i: Uuid, status: FDUState) returns (h': History)
    requires Reached(origin, h.trace, h.world) && Enabled(h.world, Return(i))
    requires i in h.world.inflight && h.world.inflight[i] == Await(n, status)
    ensures n in h.world.nodes && i in h.world.nodes[n].local
    ensures Reached(origin, h'.trace, h'.world) && AtRest(h'.world, i, h.world.nodes[n].local[i])
    ensures SameGround(h.world, h'.world) && (WellFormedRun(h.trace) ==> WellFormedRun(h'.trace))
  {
    ReachedFacts(origin, h.trace, h.world);
    PollSees(h.world, n, i, status);
    ReachedStep(origin, h, Return(i));
    h' := History(Next(h.world, Return(i)), h.trace + [Return(i)]);
  }

  /** A waiting call can complete, on the record that the home node has. */
  lemma CallCompletes(origin: World, h: History, n: Uuid, i: Uuid, status: FDUState) returns (h': History)
    requires Reached(origin, h.trace, h.world) && i in h.world.inflight && h.world.inflight[i] == Await(n, status)
    ensures n in h.world.nodes && i in h.world.nodes[n].local
    ensures Reached(origin, h'.trace, h'.world) && AtRest(h'.world, i, h.world.nodes[n].local[i])
    ensures SameGround(h.world, h'.world) && (WellFormedRun(h.trace) ==> WellFormedRun(h'.trace))
  {
    PollStarts(origin, h, {}, false, n, i, status);
    var h1 := CallReady(origin, h, i);
    h' := ReturnCompletes(origin, h1, n, i, status);
  }

  /** Every lifecycle operation that nothing refuses can be carried out, with any allowed draws, and
      ends at rest on the record it must produce. */
  lemma OperationCompletes(origin: World, h: History, v: Verb, op: PluginOp, i: Uuid, rec: FDURecord)
    returns (h': History, after: FDURecord)
    requires Reached(origin, h.trace, h.world) && WellFormedRun(h.trace) && AtRest(h.world, i, rec)
    requires Refusal(h.world, SourceOf(v), i) == None && IsOp(v, op) && rec.node in h.world.nodes
    requires DrawsAllowed(h.world, rec.node, op, i)
    ensures Reached(origin, h'.trace, h'.world) && WellFormedRun(h'.trace) && AtRest(h'.world, i, after)
    ensures Produced(h.world.catalog, v, rec, after) && SameInstance(rec, after, TargetOf(v))
    ensures h'.world.catalog == h.world.catalog && h'.world.plugins == h.world.plugins
    ensures h'.world.nodes.Keys == h.world.nodes.Keys
    ensures h'.world.issued == if op.Configure? then IssueDraws(h.world.issued, op.draws) else h.world.issued
  {
    var h1, answer := CallStep(origin, h, {}, false, rec.node, v, op, i);
    after := h1.world.nodes[rec.node].local[i];
    h' := CallCompletes(origin, h1, rec.node, i, TargetOf(v));
  }

  /** An instance can be defined wherever its descriptor is hosted. */
  lemma DefineCompletes(origin: World, h: History, n: Uuid, fdu: Uuid, u: Uuid) returns (h': History)
    requires Reached(origin, h.trace, h.world) && WellFormedRun(h.trace)
    requires n in h.world.nodes && Hosted(h.world, n, fdu) && u !in h.world.issued
    ensures Reached(origin, h'.trace, h'.world) && WellFormedRun(h'.trace)
    ensures AtRest(h'.world, u, NewInstance(n, fdu, u))
    ensures h'.world.catalog == h.world.catalog && h'.world.plugins == h.world.plugins
    ensures h'.world.nodes.Keys == h.world.nodes.Keys
    ensures h'.world.issued == h.world.issued + {u}
  {
    var h0 := ReadStep(origin, h, {}, false, Fetch(ToDefine(n, fdu)));
    var h1 := DefineStep(origin, h0, {}, false, n, fdu, u);
    h' := CallCompletes(origin, h1, n, u, DEFINED);
  }

  /** The whole way up: from any reachable state a hosted descriptor can be brought to a running
      instance on that node, given UUIDs that were not drawn before. */
  lemma InstanceCanRun(origin: World, h: History, n: Uuid, fdu: Uuid, u: Uuid, d: ConfigureDraws)
    returns (h': History, rec: FDURecord)
    requires Reached(origin, h.trace, h.world) && WellFormedRun(h.trace)
    requires n in h.world.nodes && Hosted(h.world, n, fdu) && u !in h.world.issued
    requires DrawsFit(h.world.catalog[fdu], d) && FreshDraws(d, h.world.issued + {u})
    ensures Reached(origin, h'.trace, h'.world) && AtRest(h'.world, u, rec)
    ensures rec.status == RUNNING && rec.node == n && rec.fduUuid == fdu && rec.hypervisorSpecific.Some?
  {
    var h1 := DefineCompletes(origin, h, n, fdu, u);
    HomeRecord(origin, h1, u);
    var h2, configured := OperationCompletes(origin, h1, CONFIGURE, PluginOp.Configure(d), u, NewInstance(n, fdu, u));
    h', rec := OperationCompletes(origin, h2, START, Start, u, configured);
    RunningOwns(origin, h', u, rec);
  }

  /** A running instance owns a stored namespace. */
  lemma RunningOwns(origin: World, h: History, u: Uuid, rec: FDURecord)
    requires Reached(origin, h.trace, h.world) && WellFormedRun(h.trace) && AtRest(h.world, u, rec)
    requires rec.status == RUNNING
    ensures rec.hypervisorSpecific.Some? && rec.node in h.world.nodes
    ensures rec.hypervisorSpecific.value in h.world.nodes[rec.node].net.namespaces
  {
    HomeRecord(origin, h, u);
    ReachedConserved(origin, h.trace, h.world);
    assert NodeConserved(h.world.nodes[rec.node], h.world.issued);
    ActiveReady(h.world.nodes[rec.node].net, h.world.nodes[rec.node].local, u);
  }
}
