/** The agents of all nodes working on one system: the FDU operations with their poll loops, the
    selection of a node, and the entity jobs, each interleaved with everybody else's steps. */
module Agent {
  import opened Model
  import opened Scheduling
  import opened Protocol
  import opened Replication
  import opened Resources
  import opened Calls
  import opened AgentSteps

  class Cluster {
    /** The state of every node and of the global store. */
    var w: World
    /** The instances and entity records that this client operates on. */
    var claimed: set<Uuid>
    /** The reads that this client's open calls have made. */
    var kept: multiset<Read>
    /** Nobody else acts; only messages are delivered. */
    const alone: bool
    const random: Random
    ghost const origin: World
    ghost var trace: seq<Label>

    ghost predicate Valid()
      reads this
    {
      Reached(origin, trace, w) && claimed <= w.issued && kept <= w.held
    }

    ghost function Now(): History
      reads this
    {
      History(w, trace)
    }

    constructor (start: World, alone: bool, random: Random)
      requires Init(start)
      ensures Valid() && w == start && trace == [] && claimed == {} && kept == multiset{}
      ensures this.alone == alone && this.random == random
    {
      w, claimed, kept, trace := start, {}, multiset{}, [];
      this.alone, this.random, origin := alone, random, start;
    }

    /** One step of a run. */
    method Do(l: Label)
      requires Valid() && Enabled(w, l) && Serial(w, l) && kept <= Next(w, l).held
      modifies this`w, this`trace
      ensures Valid() && Now() == History(Next(old(w), l), old(trace) + [l])
      ensures Steady(old(Now()), Now(), claimed, alone, Touched(l))
    {
      ReachedFacts(origin, trace, w);
      ExecAppend(origin, trace, l);
      StepSteady(Now(), l, claimed, alone);
      w := Next(w, l);
      trace := trace + [l];
    }

    /** Steps of others, at a point where the agent awaits. */
    method Others()
      requires Valid()
      modifies this`w, this`trace
      ensures Valid() && Waited(old(Now()), Now(), claimed, alone)
    {
      var plan: seq<Label> := *;
      SteadyRefl(Now(), claimed, alone, {});
      for k := 0 to |plan|
        invariant Valid() && Waited(old(Now()), Now(), claimed, alone)
      {
        if Enabled(w, plan[k]) && Permitted(w, plan[k], claimed, kept, alone) && Serial(w, plan[k]) {
          ReachedFacts(origin, trace, w);
          PermittedStep(Now(), plan[k], claimed, kept, alone);
          PermittedKeeps(w, plan[k], claimed, kept, alone);
          ghost var before := Now();
          Do(plan[k]);
          WaitedTrans(old(Now()), before, Now(), claimed, alone);
        }
      }
    }

    method DeliverNext(n: Uuid)
      requires Valid() && Enabled(w, Deliver(n))
      modifies this`w, this`trace
      ensures Valid() && Waited(old(Now()), Now(), claimed, alone)
      ensures forall i | alone || i in claimed :: Advanced(old(w), w, n, i)
    {
      ghost var h := DeliverStep(origin, Now(), claimed, alone, n);
      w := Next(w, Deliver(n));
      trace := h.trace;
      assert Now() == h;
    }

    /** The sleep of a poll loop: others act, and node n's subscription handles a message. */
    method Sleep(n: Uuid)
      requires Valid() && n in w.nodes
      modifies this`w, this`trace
      ensures Valid() && Waited(old(Now()), Now(), claimed, alone)
      ensures forall i | alone || i in claimed :: Advanced(old(w), w, n, i)
    {
      Others();
      ghost var waited := Now();
      if w.nodes[n].fifo != [] {
        DeliverNext(n);
        SleptThrough(old(Now()), waited, Now(), claimed, alone, n);
      } else {
        NothingToDeliver(old(Now()), waited, claimed, alone, n);
      }
    }

    /** The plugin call of a lifecycle operation. */
    method CallPlugin(n: Uuid, v: Verb, op: PluginOp, i: Uuid) returns (answer: Result<Uuid>)
      requires Valid() && Enabled(w, PluginCall(n, op, i)) && Serial(w, PluginCall(n, op, i)) && IsOp(v, op)
      modifies this`w, this`trace
      ensures Valid()
      ensures Steady(old(Now()), Now(), claimed, alone, {i}) && Calm(old(Now()), Now())
      ensures Called(old(Now()), Now(), n, v, i, answer)
    {
      ghost var h, ghostAnswer := CallStep(origin, Now(), claimed, alone, n, v, op, i);
      answer := Apply(w.nodes[n], w.catalog, op, i).1;
      assert Called(Now(), h, n, v, i, answer);
      w := Next(w, PluginCall(n, op, i));
      trace := h.trace;
      assert Now() == h;
    }

    method CallDefine(n: Uuid, fdu: Uuid, u: Uuid)
      requires Valid() && Enabled(w, DefineCall(n, fdu, u)) && ToDefine(n, fdu) in kept
      modifies this
      ensures Valid() && claimed == old(claimed) + {u} && kept == old(kept) - multiset{ToDefine(n, fdu)}
      ensures Steady(old(Now()), Now(), old(claimed), alone, {u}) && Calm(old(Now()), Now())
      ensures u in w.inflight && w.inflight[u] == Await(n, DEFINED)
      ensures n in w.nodes && u in w.nodes[n].local && w.nodes[n].local[u] == NewInstance(n, fdu, u)
    {
      ghost var h := DefineStep(origin, Now(), claimed, alone, n, fdu, u);
      KeptLess(kept, w.held, ToDefine(n, fdu));
      w := Next(w, DefineCall(n, fdu, u));
      trace := h.trace;
      assert Now() == h;
      claimed, kept := claimed + {u}, kept - multiset{ToDefine(n, fdu)};
      assert Now() == h;
    }

    /** A read that an open call will act on later. */
    method Open(read: Read)
      requires Valid() && CanFetch(w, read) && !read.ToRemove? && !read.ToRemoveEntity?
      modifies this`w, this`trace, this`kept
      ensures Valid() && kept == old(kept) + multiset{read}
      ensures w == old(w).(held := w.held)
      ensures Steady(old(Now()), Now(), claimed, alone, {}) && Calm(old(Now()), Now())
    {
      ghost var h := ReadStep(origin, Now(), claimed, alone, Fetch(read));
      w := Next(w, Fetch(read));
      trace := h.trace;
      kept := kept + multiset{read};
      assert Now() == h;
    }

    /** A listing that shows nothing takes the place of the read before it. */
    method OpenListed(found: Read, listed: Read)
      requires Valid() && found in kept && CanFetch(w, listed)
      requires ListingOf(found, listed)
      modifies this`w, this`trace, this`kept
      ensures Valid() && kept == old(kept) - multiset{found} + multiset{listed}
      ensures w == old(w).(held := w.held)
      ensures Steady(old(Now()), Now(), claimed, alone, {}) && Calm(old(Now()), Now())
    {
      ghost var h := ListStep(origin, Now(), claimed, alone, found, listed);
      KeptReplaced(kept, w.held, found, listed);
      w := Next(w, Fetch(listed));
      trace := h.trace;
      kept := kept - multiset{found} + multiset{listed};
      assert Now() == h;
    }

    /** A call ends without acting on its read. */
    method Drop(read: Read)
      requires Valid() && read in kept
      modifies this`w, this`trace, this`kept
      ensures Valid() && kept == old(kept) - multiset{read}
      ensures w == old(w).(held := w.held)
      ensures Steady(old(Now()), Now(), claimed, alone, {}) && Calm(old(Now()), Now())
    {
      ghost var h := ReadStep(origin, Now(), claimed, alone, Abandon(read));
      w := Next(w, Abandon(read));
      trace := h.trace;
      kept := kept - multiset{read};
      assert Now() == h;
    }

    /** A call that began at start ends without acting on its read. */
    method DropLater(read: Read, ghost start: History)
      requires Valid() && read in kept && Steady(start, Now(), claimed, alone, {}) && (alone ==> Calm(start, Now()))
      modifies this`w, this`trace, this`kept
      ensures Valid() && kept == old(kept) - multiset{read} && old(trace) <= trace
      ensures Steady(start, Now(), claimed, alone, {}) && (alone ==> Calm(start, Now()))
    {
      ghost var before := Now();
      Drop(read);
      SteadyAgain(start, before, Now(), claimed, claimed, alone, {});
    }

    // -------------------------------------------------------------- poll loops

    /** The last read of a poll loop. */
    method Finish(i: Uuid, ghost start: History)
      requires Valid() && Polling(start, Now(), claimed, alone, i)
      requires i in w.inflight && w.inflight[i].Await? && i in w.records && w.records[i].status == w.inflight[i].status
      modifies this`w, this`trace
      ensures Valid() && Steady(start, Now(), claimed, alone, {i}) && (alone ==> Calm(start, Now()))
      ensures i !in w.inflight && w.records == old(w).records
    {
      ghost var before := Now();
      Do(Return(i));
      PollingReturned(start, before, Now(), claimed, alone, i);
    }

    /** Poll the global store for the status a call waits for. The loop ends, on exactly the record
        that the call's plugin wrote, and then the instance is at rest. */
    method Poll(n: Uuid, i: Uuid, status: FDUState) returns (r: Result<FDURecord>)
      requires Valid() && i in claimed && i in w.inflight && w.inflight[i] == Await(n, status)
      modifies this`w, this`trace
      ensures Valid() && Steady(old(Now()), Now(), claimed, alone, {i}) && (alone ==> Calm(old(Now()), Now()))
      ensures n in old(w).nodes && i in old(w).nodes[n].local
      ensures r == Ok(old(w).nodes[n].local[i]) && AtRest(w, i, r.value)
    {
      PollStarts(origin, Now(), claimed, alone, n, i, status);
      while true
        invariant Valid() && Polling(old(Now()), Now(), claimed, alone, i)
        decreases Rank(w.nodes[n].fifo, i)
      {
        PollReads(origin, old(Now()), Now(), claimed, alone, n, i, status);
        match GetInstance(w, i) {
        case Ok(instance) =>
          match instance.status {
            case ERROR(reason) => return Err(HypervisorError(reason));
            case _ =>
              if instance.status == status {
                Finish(i, old(Now()));
                return Ok(instance);
              }
          }
        case Err(NotFound) =>
        case Err(e) => return Err(e);
        }
        SleepOnce(n, i, old(Now()));
      }
    }

    /** One sleep of a poll loop whose message is still on the way. */
    method SleepOnce(n: Uuid, i: Uuid, ghost start: History)
      requires Valid() && Polling(start, Now(), claimed, alone, i) && i in claimed && n in w.nodes
      requires Rank(w.nodes[n].fifo, i) > 0
      modifies this`w, this`trace
      ensures Valid() && Polling(start, Now(), claimed, alone, i)
      ensures n in w.nodes && Rank(w.nodes[n].fifo, i) < Rank(old(w).nodes[n].fifo, i)
    {
      ghost var before := Now();
      Sleep(n);
      PollingWaited(start, before, Now(), claimed, alone, i);
      assert Advanced(before.world, w, n, i);
    }

    // -------------------------------------------------------------- operations on instances

    /** define_fdu on node at: a new instance of the descriptor, defined there and at rest. It fails
        exactly when the descriptor or its hypervisor was missing at the start, or the UUID drawn at the
        plugin call is in use then. Others act between the read of the descriptor and the plugin call. */
    method DefineFdu(at: Uuid, fdu: Uuid) returns (r: Result<FDURecord>, ghost m: Moments)
      requires Valid() && at in w.nodes
      modifies this
      ensures Valid() && kept == old(kept) && claimed == old(claimed) + Defined(r)
      ensures m.read == old(Now()) && DefinedOn(origin, random, old(Now()), m, Now(), alone, at, fdu, r)
      ensures !Hosted(old(w), at, fdu) ==> Now() == old(Now())
      ensures Steady(old(Now()), Now(), old(claimed), alone, Defined(r))
      ensures alone ==> Calm(old(Now()), Now())
    {
      m := Moments(Now(), Now());
      SteadyRefl(Now(), claimed, alone, {});
      if fdu !in w.catalog || at !in w.plugins || w.catalog[fdu].hypervisor !in w.plugins[at] {
        return Err(NotFound), m;
      }
      OpenThenWait(ToDefine(at, fdu));
      ghost var waited := Now();
      m := Moments(old(Now()), waited);
      r := DefineDrawn(at, fdu);
      SteadyWiden(old(Now()), waited, old(claimed), alone, {}, Defined(r));
      SteadyAgain(old(Now()), waited, Now(), old(claimed), old(claimed), alone, Defined(r));
    }

    /** define_fdu after its reads: the draw, and the plugin call if it is not in use. */
    method DefineDrawn(at: Uuid, fdu: Uuid) returns (r: Result<FDURecord>)
      requires Valid() && at in w.nodes && ToDefine(at, fdu) in kept
      modifies this
      ensures Valid() && claimed == old(claimed) + Defined(r) && kept == old(kept) - multiset{ToDefine(at, fdu)}
      ensures r == DrawnInstance(random, old(w).issued, at, fdu) && (r.Ok? ==> AtRest(w, r.value.uuid, r.value))
      ensures Steady(old(Now()), Now(), old(claimed), alone, Defined(r)) && (alone ==> Calm(old(Now()), Now()))
    {
      var u := random.uuid(w.issued);
      if u in w.issued {
        Drop(ToDefine(at, fdu));
        r := Err(COLLISION);
        NothingDefined(claimed, r);
      } else {
        r := DefineHere(at, fdu, u);
      }
    }

    /** A first read of a call, and what others do before its next access. */
    method OpenThenWait(read: Read)
      requires Valid() && CanFetch(w, read) && !read.ToRemove? && !read.ToRemoveEntity?
      modifies this`w, this`trace, this`kept
      ensures Valid() && kept == old(kept) + multiset{read}
      ensures Steady(old(Now()), Now(), claimed, alone, {}) && (alone ==> Calm(old(Now()), Now()))
    {
      Open(read);
      ghost var begun := Now();
      Others();
      SteadyAgain(old(Now()), begun, Now(), claimed, claimed, alone, {});
    }

    /** define_fdu after its reads and the draw. */
    method DefineHere(n: Uuid, fdu: Uuid, u: Uuid) returns (r: Result<FDURecord>)
      requires Valid() && Enabled(w, DefineCall(n, fdu, u)) && ToDefine(n, fdu) in kept
      modifies this
      ensures Valid() && claimed == old(claimed) + {u} && kept == old(kept) - multiset{ToDefine(n, fdu)}
      ensures r == Ok(NewInstance(n, fdu, u)) && AtRest(w, u, r.value)
      ensures Steady(old(Now()), Now(), old(claimed), alone, {u}) && (alone ==> Calm(old(Now()), Now()))
    {
      CallDefine(n, fdu, u);
      ghost var called := Now();
      r := Poll(n, u, DEFINED);
      SteadyAgain(old(Now()), called, Now(), old(claimed), claimed, alone, {u});
    }

    /** configure_fdu, start_fdu, stop_fdu and clean_fdu on node at: the owner reads the descriptor,
        calls its plugin and polls; any other node forwards the call to the owner's agent, once.
        Others act before each of these accesses. */
    method Operate(at: Uuid, v: Verb, i: Uuid) returns (r: Result<FDURecord>, ghost m: Moments)
      requires Valid() && at in w.nodes && i !in w.inflight
      modifies this`w, this`trace, this`claimed
      ensures Valid() && old(claimed) <= claimed <= old(claimed) + {i} && (r.Ok? ==> i in claimed)
      ensures i in old(claimed) ==> claimed == old(claimed)
      ensures Operated(origin, random, old(Now()), m, Now(), alone, v, i, r)
      ensures Steady(old(Now()), Now(), old(claimed), alone, {i})
      ensures alone ==> Calm(old(Now()), Now())
      decreases if i in w.records && w.records[i].node == at then 0 else 1, 1
    {
      m := Moments(Now(), Now());
      SteadyRefl(Now(), claimed, alone, {i});
      if i !in w.records {
        return Err(NotFound), m;
      }
      ClaimRecorded(i);
      if w.records[i].node == at {
        r, m := OperateHere(at, v, i);
      } else {
        r, m := Forward(at, v, i);
      }
    }

    /** This client operates on an instance that it has found in the global store. */
    method ClaimRecorded(i: Uuid)
      requires Valid() && i in w.records
      modifies this`claimed
      ensures Valid() && claimed == old(claimed) + {i} && (i in old(claimed) ==> claimed == old(claimed))
    {
      RecordIssued(origin, Now(), i);
      claimed := claimed + {i};
    }

    /** The owner's part of a lifecycle operation. */
    method OperateHere(n: Uuid, v: Verb, i: Uuid) returns (r: Result<FDURecord>, ghost m: Moments)
      requires Valid() && i in claimed && i !in w.inflight && i in w.records && w.records[i].node == n && n in w.nodes
      modifies this`w, this`trace
      ensures Valid() && Operated(origin, random, old(Now()), m, Now(), alone, v, i, r)
      ensures Steady(old(Now()), Now(), claimed, alone, {i}) && (alone ==> Calm(old(Now()), Now()))
    {
      var instance := w.records[i];
      Others();
      ghost var read := Now();
      m := Moments(read, read);
      if instance.fduUuid !in w.catalog || n !in w.plugins || w.catalog[instance.fduUuid].hypervisor !in w.plugins[n] {
        OperateRefused(origin, random, old(Now()), read, claimed, alone, v, i);
        return Err(NotFound), m;
      }
      RecordWaited(origin, old(Now()), read, claimed, alone, i);
      ghost var called;
      r, called := CallAndPoll(n, v, i);
      m := Moments(read, called);
      OperateCalled(origin, random, old(Now()), m, Now(), claimed, alone, v, i, r);
    }

    /** The plugin call of a lifecycle operation and its poll, after others have acted. */
    method CallAndPoll(n: Uuid, v: Verb, i: Uuid) returns (r: Result<FDURecord>, ghost called: History)
      requires Valid() && i in claimed && i !in w.inflight && i in w.records && w.records[i].node == n && n in w.nodes
      modifies this`w, this`trace
      ensures Valid() && PluginResult(origin, random, old(Now()), called, Now(), alone, v, i, r)
      ensures Steady(old(Now()), Now(), claimed, alone, {i}) && (alone ==> Calm(old(Now()), Now()))
    {
      Others();
      called := Now();
      RecordWaited(origin, old(Now()), called, claimed, alone, i);
      r := PollCalled(n, v, i);
      LaterResult(origin, random, old(Now()), called, called, Now(), claimed, alone, v, i, r);
      WaitedThen(old(Now()), called, Now(), claimed, alone, {i});
    }

    method PollCalled(n: Uuid, v: Verb, i: Uuid) returns (r: Result<FDURecord>)
      requires Valid() && i in claimed && i !in w.inflight && i in w.records && w.records[i].node == n && n in w.nodes
      modifies this`w, this`trace
      ensures Valid() && PluginResult(origin, random, old(Now()), old(Now()), Now(), alone, v, i, r)
      ensures Steady(old(Now()), Now(), claimed, alone, {i}) && (alone ==> Calm(old(Now()), Now()))
    {
      SteadyRefl(Now(), claimed, alone, {i});
      if v != CONFIGURE {
        r := PollOp(n, v, OpOf(v), i);
        return;
      }
      HomeRecord(origin, Now(), i);
      NotConfigured(origin, random, Now(), alone, i);
      var instance := w.nodes[n].local[i];
      var refusal := PluginRefusal(w.catalog, v, instance);
      if refusal.Some? {
        return Err(refusal.value);
      }
      var desc := w.catalog[instance.fduUuid];
      if !DrawsFree(random, w.issued, desc) {
        return Err(COLLISION);
      }
      r := PollOp(n, v, PluginOp.Configure(random.configure(w.issued, desc)), i);
    }

    /** The plugin call, and the poll if it succeeds. */
    method PollOp(n: Uuid, v: Verb, op: PluginOp, i: Uuid) returns (r: Result<FDURecord>)
      requires Valid() && i in claimed && i !in w.inflight && i in w.records && w.records[i].node == n
      requires Enabled(w, PluginCall(n, op, i)) && IsOp(v, op) && !Collided(random, w, v, w.records[i])
      modifies this`w, this`trace
      ensures Valid() && PluginResult(origin, random, old(Now()), old(Now()), Now(), alone, v, i, r)
      ensures Steady(old(Now()), Now(), claimed, alone, {i}) && (alone ==> Calm(old(Now()), Now()))
    {
      var answer := CallPlugin(n, v, op, i);
      ghost var answered := Now();
      if answer.Err? {
        PluginRefused(origin, random, old(Now()), answered, alone, n, v, i, answer);
        return Err(answer.error);
      }
      r := PollAnswered(n, v, i, answer, old(Now()));
    }

    /** The poll of a plugin call that succeeded since start. */
    method PollAnswered(n: Uuid, v: Verb, i: Uuid, ghost answer: Result<Uuid>, ghost start: History)
      returns (r: Result<FDURecord>)
      requires Valid() && i in claimed && Reached(origin, start.trace, start.world) && i in start.world.records
      requires answer.Ok? && Called(start, Now(), n, v, i, answer)
      requires !Collided(random, start.world, v, start.world.records[i])
      requires Steady(start, Now(), claimed, alone, {i}) && Calm(start, Now())
      modifies this`w, this`trace
      ensures Valid() && PluginResult(origin, random, start, start, Now(), alone, v, i, r)
      ensures Steady(start, Now(), claimed, alone, {i}) && (alone ==> Calm(start, Now()))
    {
      ghost var answered := Now();
      r := Poll(n, i, TargetOf(v));
      PluginAnswered(origin, random, start, answered, Now(), alone, n, v, i, answer, r.value);
      SteadyAgain(start, answered, Now(), claimed, claimed, alone, {i});
    }

    /** The node whose agent serves this service UUID. */
    method Resolve(service: Uuid) returns (n: Option<Uuid>)
      ensures n.Some? ==> n.value in w.infos && w.infos[n.value].agentServiceUuid == service
      ensures n.None? ==> forall k | k in w.infos :: w.infos[k].agentServiceUuid != service
    {
      if k :| k in w.infos && w.infos[k].agentServiceUuid == service {
        n := Some(k);
      } else {
        n := None;
      }
    }

    /** A lifecycle operation sent to the agent of the node that the global record names. */
    method Forward(at: Uuid, v: Verb, i: Uuid) returns (r: Result<FDURecord>, ghost m: Moments)
      requires Valid() && i in claimed && i !in w.inflight && i in w.records && w.records[i].node != at
      modifies this`w, this`trace, this`claimed
      ensures Valid() && claimed == old(claimed)
      ensures Operated(origin, random, old(Now()), m, Now(), alone, v, i, r)
      ensures Steady(old(Now()), Now(), claimed, alone, {i}) && (alone ==> Calm(old(Now()), Now()))
      decreases 1, 0
    {
      var owner := w.records[i].node;
      RoutedOwner(origin, Now(), i);
      Others();
      ghost var waited := Now();
      m := Moments(waited, waited);
      RecordWaited(origin, old(Now()), waited, claimed, alone, i);
      RoutedService(origin, waited, owner);
      if owner !in w.infos {
        return Err(NotFound), m;
      }
      var n := Resolve(w.infos[owner].agentServiceUuid);
      if n.None? {
        return Err(ZConnectorError), m;
      }
      r, m := Operate(n.value, v, i);
      LaterOperated(origin, random, old(Now()), waited, m, Now(), claimed, alone, v, i, r);
      WaitedThen(old(Now()), waited, Now(), claimed, alone, {i});
    }

    method CallUndefine(n: Uuid, i: Uuid) returns (answer: Result<Uuid>)
      requires Valid() && Enabled(w, PluginCall(n, Undefine, i)) && Serial(w, PluginCall(n, Undefine, i))
      modifies this`w, this`trace
      ensures Valid() && UndefineCalled(old(w), w, n, i, answer)
      ensures Steady(old(Now()), Now(), claimed, alone, {i}) && Calm(old(Now()), Now())
    {
      ghost var h, ghostAnswer := UndefineStep(origin, Now(), claimed, alone, n, i);
      answer := Apply(w.nodes[n], w.catalog, Undefine, i).1;
      w := Next(w, PluginCall(n, Undefine, i));
      trace := h.trace;
      assert Now() == h;
    }

    method RemoveInstance(i: Uuid)
      requires Valid() && Enabled(w, RemoveRecord(i))
      modifies this`w, this`trace
      ensures Valid() && Gone(w, i)
      ensures Steady(old(Now()), Now(), claimed, alone, {i}) && Calm(old(Now()), Now())
    {
      ghost var h := RemoveStep(origin, Now(), claimed, alone, i);
      w := Next(w, RemoveRecord(i));
      trace := h.trace;
      assert Now() == h;
    }

    /** undefine_fdu on node at. The owner undefines the instance and removes the global record;
        afterwards it is nowhere. Any other node asks the owner to clean it instead. */
    method UndefineFdu(at: Uuid, i: Uuid) returns (r: Result<FDURecord>, ghost m: Moments)
      requires Valid() && at in w.nodes && i !in w.inflight
      modifies this`w, this`trace, this`claimed
      ensures Valid() && old(claimed) <= claimed <= old(claimed) + {i}
      ensures i in old(claimed) ==> claimed == old(claimed)
      ensures i !in old(w).records || old(w).records[i].node == at ==>
          Undefined(origin, old(Now()), m.read, Now(), alone, i, r)
      ensures i in old(w).records && old(w).records[i].node != at ==>
          Operated(origin, random, old(Now()), m, Now(), alone, CLEAN, i, r)
      ensures Steady(old(Now()), Now(), old(claimed), alone, {i})
      ensures alone ==> Calm(old(Now()), Now())
    {
      m := Moments(Now(), Now());
      SteadyRefl(Now(), claimed, alone, {i});
      if i !in w.records {
        return Err(NotFound), m;
      }
      ClaimRecorded(i);
      if w.records[i].node != at {
        r, m := Forward(at, CLEAN, i);
      } else {
        ghost var read;
        r, read := UndefineHere(at, i);
        m := Moments(read, read);
      }
    }

    /** The owner's part of an undefine. */
    method UndefineHere(n: Uuid, i: Uuid) returns (r: Result<FDURecord>, ghost read: History)
      requires Valid() && i in claimed && i !in w.inflight && i in w.records && w.records[i].node == n && n in w.nodes
      modifies this`w, this`trace
      ensures Valid() && Undefined(origin, old(Now()), read, Now(), alone, i, r)
      ensures Steady(old(Now()), Now(), claimed, alone, {i}) && (alone ==> Calm(old(Now()), Now()))
    {
      var instance := w.records[i];
      Others();
      read := Now();
      RecordWaited(origin, old(Now()), read, claimed, alone, i);
      SteadyWiden(old(Now()), read, claimed, alone, {}, {i});
      if instance.fduUuid !in w.catalog || n !in w.plugins || w.catalog[instance.fduUuid].hypervisor !in w.plugins[n] {
        return Err(NotFound), read;
      }
      Others();
      ghost var calling := Now();
      RecordWaited(origin, read, calling, claimed, alone, i);
      WaitedTrans(old(Now()), read, calling, claimed, alone);
      r := UndefineAndRemove(n, i);
      ReadWithin(origin, old(Now()), read, Now(), claimed, alone, i);
      LaterUndefine(old(Now()), calling, Now(), claimed, alone, i, r);
      WaitedThen(old(Now()), calling, Now(), claimed, alone, {i});
    }

    /** The plugin call of an undefine and the removal of the global record. */
    method UndefineAndRemove(n: Uuid, i: Uuid) returns (r: Result<FDURecord>)
      requires Valid() && i in claimed && i !in w.inflight && i in w.records && w.records[i].node == n && n in w.nodes
      modifies this`w, this`trace
      ensures Valid() && UndefineResult(old(Now()), Now(), i, r)
      ensures Steady(old(Now()), Now(), claimed, alone, {i}) && (alone ==> Calm(old(Now()), Now()))
    {
      var instance := w.records[i];
      var answer := CallUndefine(n, i);
      ghost var called := Now();
      if answer.Err? {
        return Err(answer.error);
      }
      Others();
      ghost var waited := Now();
      RemovingStays(origin, called, waited, claimed, alone, n, i);
      SteadyWiden(called, waited, claimed, alone, {}, {i});
      SteadyAgain(old(Now()), called, waited, claimed, claimed, alone, {i});
      RemoveInstance(i);
      SteadyAgain(old(Now()), waited, Now(), claimed, claimed, alone, {i});
      r := Ok(instance);
    }

    // -------------------------------------------------------------- catalogs

    /** onboard_fdu: the descriptor is catalogued under its own UUID, or under a drawn one. */
    method OnboardFdu(fdu: FDUDescriptor) returns (r: Result<Uuid>)
      requires Valid()
      modifies this`w, this`trace
      ensures Valid() && Steady(old(Now()), Now(), claimed, alone, {})
      ensures r == Named(random, old(w).issued, fdu.uuid)
      ensures r.Ok? ==>
          w == old(w).(catalog := old(w).catalog[r.value := fdu.(uuid := Some(r.value))],
                       issued := old(w).issued + {r.value})
      ensures r.Ok? ==> trace == old(trace) + [Onboard(fdu.(uuid := Some(r.value)))]
      ensures r.Err? ==> Now() == old(Now())
    {
      SteadyRefl(Now(), claimed, alone, {});
      var id := fdu.uuid;
      if id.None? {
        var u := random.uuid(w.issued);
        if u in w.issued {
          return Err(COLLISION);
        }
        id := Some(u);
      }
      var l := Onboard(fdu.(uuid := id));
      ghost var h := CatalogStep(origin, Now(), claimed, alone, l);
      w := Next(w, l);
      trace := h.trace;
      assert Now() == h;
      r := Ok(id.value);
    }

    /** offload_fdu: removes the descriptor exactly when it was catalogued at the start and, at the
        moment of the listing, the global store showed no instance of it. */
    method OffloadFdu(f: Uuid) returns (r: Result<Uuid>, ghost listed: History)
      requires Valid()
      modifies this`w, this`trace, this`kept
      ensures Valid() && kept == old(kept) && Moment(origin, old(Now()), listed, Now(), alone)
      ensures Steady(old(Now()), listed, claimed, alone, {}) && Steady(old(Now()), Now(), claimed, alone, {})
      ensures r.Ok?
        <==> f in old(w).catalog && forall i | i in listed.world.records :: listed.world.records[i].fduUuid != f
      ensures r.Err? ==>
          r.error == (if f in old(w).catalog then HasInstances else NotFound) && (alone ==> Calm(old(Now()), Now()))
      ensures r.Ok? ==> r.value == f && f !in w.catalog && Did(old(trace), trace, Offload(f))
      ensures r.Ok? && alone ==> w.catalog == old(w).catalog - {f} && w.entities == old(w).entities
      ensures r.Ok? && alone && WellFormedRun(old(trace)) ==> WellFormedRun(trace)
    {
      listed := Now();
      SteadyRefl(Now(), claimed, alone, {});
      if f !in w.catalog {
        return Err(NotFound), listed;
      }
      OpenThenWait(ToOffload(f));
      listed := Now();
      if exists i | i in w.records :: w.records[i].fduUuid == f {
        DropLater(ToOffload(f), old(Now()));
        KeptAgain(old(kept), ToOffload(f));
        return Err(HasInstances), listed;
      }
      FinishOffload(ToOffload(f), ToRemove(f), Offload(f));
      KeptAgain(old(kept), ToOffload(f));
      StillDid(old(trace), listed.trace, trace, trace, Offload(f));
      SteadyAgain(old(Now()), listed, Now(), claimed, claimed, alone, {});
      r := Ok(f);
    }

    /** The listing has shown nothing; others act, and then the catalog entry is removed. */
    method FinishOffload(found: Read, listed: Read, l: Label)
      requires Valid() && found in kept && CanFetch(w, listed) && OffloadOf(found, listed, l)
      modifies this`w, this`trace, this`kept
      ensures Valid() && kept == old(kept) - multiset{found} && Steady(old(Now()), Now(), claimed, alone, {})
      ensures l.Offload? ==> l.fdu !in w.catalog
      ensures l.OffloadEntity? ==> l.e !in w.entities
      ensures alone ==> OnlyOffloaded(old(Now()), Now(), l)
      ensures Did(old(trace), trace, l)
    {
      OpenListed(found, listed);
      ghost var begun := Now();
      Others();
      ghost var waited := Now();
      WriteOffload(listed, l);
      assert trace[|waited.trace|] == l;
      OffloadSteps(old(Now()), begun, waited, Now(), claimed, alone, l);
      KeptReplacedOnce(old(kept), found, listed);
    }

    method WriteOffload(listed: Read, l: Label)
      requires Valid() && listed in kept
      requires RemovalOf(listed, l)
      modifies this`w, this`trace, this`kept
      ensures Valid() && kept == old(kept) - multiset{listed} && Steady(old(Now()), Now(), claimed, alone, {})
      ensures OnlyOffloaded(old(Now()), Now(), l) && trace == old(trace) + [l]
    {
      ghost var h := OffloadStep(origin, Now(), claimed, alone, listed, l);
      KeptLess(kept, w.held, listed);
      w := Next(w, l);
      trace := h.trace;
      kept := kept - multiset{listed};
      assert Now() == h;
    }

    /** offload_entity, likewise with entity records. */
    method OffloadEntity(e: Uuid) returns (r: Result<Uuid>, ghost listed: History)
      requires Valid()
      modifies this`w, this`trace, this`kept
      ensures Valid() && kept == old(kept) && Moment(origin, old(Now()), listed, Now(), alone)
      ensures Steady(old(Now()), listed, claimed, alone, {}) && Steady(old(Now()), Now(), claimed, alone, {})
      ensures r.Ok?
        <==> e in old(w).entities && forall k | k in listed.world.entityRecords :: listed.world.entityRecords[k].id != e
      ensures r.Err? ==>
          r.error == (if e in old(w).entities then HasInstances else NotFound) && (alone ==> Calm(old(Now()), Now()))
      ensures r.Ok? ==> r.value == e && e !in w.entities
      ensures r.Ok? && alone ==> w.entities == old(w).entities - {e} && w.catalog == old(w).catalog
    {
      listed := Now();
      SteadyRefl(Now(), claimed, alone, {});
      if e !in w.entities {
        return Err(NotFound), listed;
      }
      OpenThenWait(ToOffloadEntity(e));
      listed := Now();
      if exists k | k in w.entityRecords :: w.entityRecords[k].id == e {
        DropLater(ToOffloadEntity(e), old(Now()));
        KeptAgain(old(kept), ToOffloadEntity(e));
        return Err(HasInstances), listed;
      }
      FinishOffload(ToOffloadEntity(e), ToRemoveEntity(e), Protocol.OffloadEntity(e));
      KeptAgain(old(kept), ToOffloadEntity(e));
      SteadyAgain(old(Now()), listed, Now(), claimed, claimed, alone, {});
      r := Ok(e);
    }

    /** The loop of onboard_entity over the FDUs. It fails only when one of the draws that it needs is of
        a UUID in use. */
    method FillFdus(given: seq<FDUDescriptor>) returns (r: Result<seq<FDUDescriptor>>)
      ensures r.Ok? ==> FdusFilled(w.issued, given, r.value) && Ids(given) <= Ids(r.value)
      ensures r.Ok? ==> |w.issued + Ids(r.value)| <= |w.issued + Ids(given)| + Nameless(given)
      ensures r.Err? ==> r.error == COLLISION && MayCollide(random, w.issued + Ids(given), Nameless(given))
    {
      var fdus: seq<FDUDescriptor> := [];
      var used := w.issued + Ids(given);
      for k := 0 to |given|
        invariant |fdus| == k && FilledSoFar(w.issued, given, fdus)
        invariant used == w.issued + Ids(given) + Ids(fdus)
        invariant |used| <= |w.issued + Ids(given)| + Nameless(given[..k])
      {
        var id := Named(random, used, given[k].uuid);
        if id.Err? {
          DrawCollides(random, w.issued + Ids(given), given, k, used);
          return Err(id.error);
        }
        ghost var before := fdus;
        fdus := fdus + [given[k].(uuid := Some(id.value))];
        FilledNext(w.issued, given, before, used, id.value);
        UsedNext(w.issued + Ids(given), given, k, used, id.value);
        used := used + {id.value};
      }
      AllFilledIn(w.issued, given, fdus, used);
      r := Ok(fdus);
    }

    /** onboard_entity: every FDU without a UUID gets a drawn one; order and given UUIDs are kept. It fails
        only when one of the draws that it needs is of a UUID in use. */
    method OnboardEntity(entity: EntityDescriptor) returns (r: Result<Uuid>)
      requires Valid()
      modifies this`w, this`trace
      ensures Valid() && Steady(old(Now()), Now(), claimed, alone, {})
      ensures r.Ok? && entity.uuid.Some? ==> r.value == entity.uuid.value
      ensures r.Ok? && entity.uuid.None? ==> r.value !in old(w).issued
      ensures r.Ok? ==> r.value in w.entities && FilledFrom(old(w).issued, entity, w.entities[r.value], r.value)
      ensures r.Ok? ==>
          w == old(w).(entities := old(w).entities[r.value := w.entities[r.value]],
                       issued := old(w).issued + {r.value} + Ids(w.entities[r.value].fdus))
      ensures r.Err? ==> Now() == old(Now()) && r.error == COLLISION
      ensures r.Err? ==>
          MayCollide(random, w.issued + Ids(entity.fdus), Nameless(entity.fdus) + if entity.uuid.None? then 1 else 0)
    {
      SteadyRefl(Now(), claimed, alone, {});
      var fdus := FillFdus(entity.fdus);
      if fdus.Err? {
        return Err(fdus.error);
      }
      var id := Named(random, w.issued + Ids(fdus.value), entity.uuid);
      if id.Err? {
        LastDrawCollides(random, w.issued, entity.fdus, fdus.value);
        return id;
      }
      StoreEntity(entity.(uuid := Some(id.value), fdus := fdus.value));
      r := id;
    }

    /** The put of a filled entity. */
    method StoreEntity(entity: EntityDescriptor)
      requires Valid() && Filled(entity)
      modifies this`w, this`trace
      ensures Valid() && Steady(old(Now()), Now(), claimed, alone, {})
      ensures w == old(w).(entities := old(w).entities[entity.uuid.value := entity],
                           issued := old(w).issued + {entity.uuid.value} + Ids(entity.fdus))
    {
      ghost var h := CatalogStep(origin, Now(), claimed, alone, Protocol.OnboardEntity(entity));
      w := Next(w, Protocol.OnboardEntity(entity));
      trace := h.trace;
      assert Now() == h;
    }

    // -------------------------------------------------------------- scheduling an FDU

    /** The advertised nodes, in the order the store happens to list them. */
    method AllNodes() returns (nodes: seq<NodeInfo>)
      requires forall n | n in w.infos :: w.infos[n].uuid == n
      ensures Advertised(w.infos, nodes)
    {
      nodes := [];
      var rest := w.infos.Keys;
      while rest != {}
        invariant rest <= w.infos.Keys
        invariant forall k | 0 <= k < |nodes| ::
            nodes[k].uuid in w.infos && nodes[k].uuid !in rest && w.infos[nodes[k].uuid] == nodes[k]
        invariant forall j, k | 0 <= j < k < |nodes| :: nodes[j].uuid != nodes[k].uuid
        invariant forall n | n in w.infos && n !in rest :: w.infos[n] in nodes
        decreases |rest|
      {
        var n :| n in rest;
        nodes, rest := nodes + [w.infos[n]], rest - {n};
      }
    }

    /** A compatibility request to the agent service of a node, after others have acted. */
    method Ask(service: Uuid, fdu: Uuid) returns (v: Result<bool>, ghost n: Uuid)
      requires Valid() && exists k :: k in w.infos && w.infos[k].agentServiceUuid == service
      modifies this`w, this`trace
      ensures Valid() && Waited(old(Now()), Now(), claimed, alone)
      ensures n in old(w).infos && old(w).infos[n].agentServiceUuid == service && v == CheckFdu(w, n, fdu)
    {
      Others();
      var node := Resolve(service);
      n := node.value;
      v := CheckFdu(w, node.value, fdu);
    }

    method Clients(nodes: seq<NodeInfo>, mine: Uuid) returns (clients: seq<Uuid>)
      ensures clients == RemoteServices(nodes, mine)
    {
      clients := [];
      for k := 0 to |nodes|
        invariant clients == RemoteServices(nodes[..k], mine)
      {
        RemoteServicesAppend(nodes[..k], nodes[k], mine);
        assert nodes[..k + 1] == nodes[..k] + [nodes[k]];
        if nodes[k].agentServiceUuid != mine {
          clients := clients + [nodes[k].agentServiceUuid];
        }
      }
      assert nodes[..|nodes|] == nodes;
    }

    /** Every client is asked once, each at a moment of its own. */
    method AskAll(clients: seq<Uuid>, fdu: Uuid) returns (accepting: seq<Uuid>, ghost moments: map<Uuid, History>)
      requires Valid() && OwnServices(w.infos) && ServedOnce(w.infos, clients)
      modifies this`w, this`trace
      ensures Valid() && Waited(old(Now()), Now(), claimed, alone)
      ensures AskedAt(origin, old(Now()), moments, Now(), alone)
      ensures ClientsAnswered(old(w).infos, clients, fdu, moments, accepting)
    {
      accepting, moments := [], map[];
      SteadyRefl(Now(), claimed, alone, {});
      NobodyAsked(origin, Now(), alone, w.infos, clients, fdu);
      for k := 0 to |clients|
        invariant Valid() && Waited(old(Now()), Now(), claimed, alone)
        invariant AskedAt(origin, old(Now()), moments, Now(), alone)
        invariant ClientsAnswered(old(w).infos, clients[..k], fdu, moments, accepting)
      {
        var more;
        more, moments := AskNext(clients, k, fdu, accepting, old(Now()), moments);
        accepting := accepting + more;
      }
      EverybodyAsked(old(w).infos, clients, fdu, moments, accepting);
    }

    /** One more client is asked. */
    method AskNext(clients: seq<Uuid>, k: nat, fdu: Uuid, accepting: seq<Uuid>, ghost start: History,
                   ghost asked: map<Uuid, History>)
      returns (more: seq<Uuid>, ghost moments: map<Uuid, History>)
      requires Valid() && Waited(start, Now(), claimed, alone) && AskedAt(origin, start, asked, Now(), alone)
      requires OwnServices(start.world.infos) && ServedOnce(start.world.infos, clients) && k < |clients|
      requires ClientsAnswered(start.world.infos, clients[..k], fdu, asked, accepting)
      modifies this`w, this`trace
      ensures Valid() && Waited(start, Now(), claimed, alone) && AskedAt(origin, start, moments, Now(), alone)
      ensures ClientsAnswered(start.world.infos, clients[..k + 1], fdu, moments, accepting + more)
    {
      ghost var before := Now();
      var v;
      ghost var n;
      v, n := Ask(clients[k], fdu);
      moments := asked[n := Now()];
      AskedNext(origin, start, before, Now(), claimed, alone, asked, n);
      ClientAnswered(start.world.infos, clients, k, fdu, asked, accepting, n, Now());
      more := if v == Ok(true) then [clients[k]] else [];
    }

    /** The other nodes' answers: every advertised node but this one is asked over RPC. */
    method AskOthers(at: Uuid, fdu: Uuid)
      returns (accepting: seq<Uuid>, ghost nodes: seq<NodeInfo>, ghost asked: seq<Uuid>,
               ghost moments: map<Uuid, History>)
      requires Valid() && at in w.nodes
      modifies this`w, this`trace
      ensures Valid() && Waited(old(Now()), Now(), claimed, alone) && at in old(w).infos
      ensures Advertised(old(w).infos, nodes) && multiset(asked) == multiset(Services(nodes))
      ensures AskedAt(origin, old(Now()), moments, Now(), alone) && AskedClients(old(w), at, nodes, moments)
      ensures accepting
        == Accepting(RemoteServices(nodes, old(w).infos[at].agentServiceUuid),
                     Verdicts(old(w).infos, Checks(moments, fdu)))
    {
      ReachedRouted(origin, trace, w);
      var mine := w.infos[at].agentServiceUuid;
      var all := AllNodes();
      var clients := Clients(all, mine);
      nodes, asked := all, clients + [mine];
      AllAskedOnce(w, at, all);
      ClientsServed(w, at, all);
      accepting, moments := AskAll(clients, fdu);
    }

    /** get_compatible_nodes on node at: every advertised node is asked exactly once, at a moment of its
        own; the list is empty exactly when no node accepted, and each entry stands for a node that
        accepted. */
    method GetCompatibleNodes(at: Uuid, fdu: Uuid)
      returns (compatibles: seq<Uuid>, ghost nodes: seq<NodeInfo>, ghost asked: seq<Uuid>,
               ghost moments: map<Uuid, History>)
      requires Valid() && at in w.nodes
      modifies this`w, this`trace
      ensures Valid() && Waited(old(Now()), Now(), claimed, alone)
      ensures Advertised(old(w).infos, nodes) && multiset(asked) == multiset(Services(nodes))
      ensures AskedAt(origin, old(Now()), moments, Now(), alone)
      ensures CompatibleNodes(old(w), at, fdu, moments, compatibles)
    {
      var accepting;
      ghost var others;
      accepting, nodes, asked, others := AskOthers(at, fdu);
      compatibles, moments := AskSelfLast(at, fdu, accepting, old(Now()), nodes, others);
    }

    /** The caller asks itself after all others. */
    method AskSelfLast(at: Uuid, fdu: Uuid, accepting: seq<Uuid>, ghost start: History, ghost nodes: seq<NodeInfo>,
                       ghost others: map<Uuid, History>)
      returns (compatibles: seq<Uuid>, ghost moments: map<Uuid, History>)
      requires Valid() && Waited(start, Now(), claimed, alone) && Reached(origin, start.trace, start.world)
      requires at in start.world.infos && Advertised(start.world.infos, nodes)
      requires AskedAt(origin, start, others, Now(), alone) && AskedClients(start.world, at, nodes, others)
      requires accepting
        == Accepting(RemoteServices(nodes, start.world.infos[at].agentServiceUuid),
                     Verdicts(start.world.infos, Checks(others, fdu)))
      modifies this`w, this`trace
      ensures Valid() && Waited(start, Now(), claimed, alone)
      ensures AskedAt(origin, start, moments, Now(), alone)
      ensures CompatibleNodes(start.world, at, fdu, moments, compatibles)
    {
      ghost var before := Now();
      var v := AskSelf(at, fdu);
      moments := others[at := Now()];
      compatibles := accepting + if v == Ok(true) then [at] else [];
      SelfAskedLast(origin, start, before, Now(), claimed, alone, at, fdu, nodes, others, accepting, v);
    }

    /** The caller's own check, after others have acted. */
    method AskSelf(at: Uuid, fdu: Uuid) returns (v: Result<bool>)
      requires Valid()
      modifies this`w, this`trace
      ensures Valid() && Waited(old(Now()), Now(), claimed, alone) && v == CheckFdu(w, at, fdu)
    {
      Others();
      v := CheckFdu(w, at, fdu);
    }

    /** The random choice among the compatible nodes; n is the node that the choice stands for. */
    method Choose(at: Uuid, fdu: Uuid)
      returns (selected: Option<Uuid>, ghost n: Uuid, ghost moments: map<Uuid, History>)
      requires Valid() && at in w.nodes
      modifies this`w, this`trace
      ensures Valid() && Waited(old(Now()), Now(), claimed, alone)
      ensures AskedAt(origin, old(Now()), moments, Now(), alone)
      ensures selected.None? ==> NoneAccepted(old(w), moments, fdu)
      ensures selected.Some? ==> Accepted(old(w), moments, fdu, n) && StandsFor(old(w), at, selected.value, n)
    {
      var compatibles;
      ghost var nodes, asked;
      compatibles, nodes, asked, moments := GetCompatibleNodes(at, fdu);
      n := at;
      if compatibles == [] {
        selected := None;
      } else {
        var pick: nat := *;
        selected := Some(compatibles[pick % |compatibles|]);
        n := AcceptingNode(old(w), at, Checks(moments, fdu), selected.value);
      }
    }

    /** define_fdu on this node, or sent to the agent of the selected one. */
    method DefineAt(at: Uuid, selected: Uuid, fdu: Uuid, ghost n: Uuid)
      returns (r: Result<FDURecord>, ghost m: Moments)
      requires Valid() && at in w.nodes && n in w.nodes
      requires StandsFor(w, at, selected, n)
      modifies this
      ensures Valid() && kept == old(kept) && claimed == old(claimed) + Defined(r)
      ensures DefinedOn(origin, random, old(Now()), m, Now(), alone, n, fdu, r)
      ensures Steady(old(Now()), Now(), old(claimed), alone, Defined(r))
      ensures alone ==> Calm(old(Now()), Now())
    {
      if selected == at {
        r, m := DefineFdu(at, fdu);
      } else {
        var owner := Resolve(selected);
        r, m := DefineFdu(owner.value, fdu);
      }
    }

    /** schedule_fdu on node at: NotFound when no node answered Ok(true) when it was asked; otherwise one
        that did defines the new instance, and the call fails only as that define does. */
    method ScheduleFdu(at: Uuid, fdu: Uuid) returns (r: Result<FDURecord>, ghost choice: Choice)
      requires Valid() && at in w.nodes
      modifies this
      ensures Valid() && kept == old(kept) && claimed == old(claimed) + Defined(r)
      ensures Scheduled(origin, random, old(Now()), choice, Now(), alone, fdu, r)
      ensures Steady(old(Now()), Now(), old(claimed), alone, Defined(r))
      ensures alone ==> Calm(old(Now()), Now())
    {
      var selected;
      ghost var n, moments;
      selected, n, moments := Choose(at, fdu);
      if selected.None? {
        r := Err(NotFound);
        choice := Choice(moments, n, Moments(Now(), Now()));
        NothingDefined(claimed, r);
      } else {
        ghost var m;
        r, m := DefineChosen(at, selected.value, fdu, n, old(Now()), moments);
        choice := Choice(moments, n, m);
      }
    }

    /** After others have acted since start, the selected node defines. */
    method DefineChosen(at: Uuid, selected: Uuid, fdu: Uuid, ghost n: Uuid, ghost start: History,
                        ghost moments: map<Uuid, History>)
      returns (r: Result<FDURecord>, ghost m: Moments)
      requires Valid() && Waited(start, Now(), claimed, alone) && at in start.world.nodes
      requires AskedAt(origin, start, moments, Now(), alone)
      requires Accepted(start.world, moments, fdu, n) && StandsFor(start.world, at, selected, n)
      modifies this
      ensures Valid() && kept == old(kept) && claimed == old(claimed) + Defined(r)
      ensures Scheduled(origin, random, start, Choice(moments, n, m), Now(), alone, fdu, r)
      ensures Steady(start, Now(), old(claimed), alone, Defined(r))
      ensures alone ==> Calm(start, Now())
    {
      ghost var chosen := Now();
      r, m := DefineLater(at, selected, fdu, n);
      WaitedThen(start, chosen, Now(), old(claimed), alone, Defined(r));
      ChosenDefines(origin, random, start, moments, chosen, m, Now(), alone, n, fdu, r);
    }

    /** Others act, and then the selected node defines. */
    method DefineLater(at: Uuid, selected: Uuid, fdu: Uuid, ghost n: Uuid)
      returns (r: Result<FDURecord>, ghost m: Moments)
      requires Valid() && at in w.nodes && n in w.nodes
      requires StandsFor(w, at, selected, n)
      modifies this
      ensures Valid() && kept == old(kept) && claimed == old(claimed) + Defined(r)
      ensures DefinedOn(origin, random, old(Now()), m, Now(), alone, n, fdu, r)
      ensures Steady(old(Now()), Now(), old(claimed), alone, Defined(r))
      ensures alone ==> Calm(old(Now()), Now())
    {
      Others();
      ghost var waited := Now();
      r, m := DefineAt(at, selected, fdu, n);
      WaitedThen(old(Now()), waited, Now(), old(claimed), alone, Defined(r));
      LaterDefined(origin, random, old(Now()), waited, m, Now(), alone, n, fdu, r);
    }

    // -------------------------------------------------------------- entity records

    /** A first put of an entity record, under a drawn UUID. */
    method Instantiate(rec: EntityRecord)
      requires Valid() && Enabled(w, Protocol.Instantiate(rec)) && ToInstantiate(rec.id) in kept
      modifies this
      ensures Valid() && claimed == old(claimed) + {rec.uuid} && kept == old(kept) - multiset{ToInstantiate(rec.id)}
      ensures Steady(old(Now()), Now(), old(claimed), alone, {rec.uuid}) && Calm(old(Now()), Now())
      ensures w
        == old(w).(entityRecords := old(w).entityRecords[rec.uuid := rec], held := w.held,
                   issued := old(w).issued + {rec.uuid})
      ensures Shown(old(trace), trace, rec.uuid, [rec.status])
    {
      ghost var h := InstantiateStep(origin, Now(), claimed, kept, alone, rec);
      w := w.(entityRecords := w.entityRecords[rec.uuid := rec], held := w.held - multiset{ToInstantiate(rec.id)},
              issued := w.issued + {rec.uuid});
      trace := h.trace;
      assert Now() == h;
      claimed, kept := claimed + {rec.uuid}, kept - multiset{ToInstantiate(rec.id)};
      assert Now() == h;
    }

    /** A later put of an entity record. */
    method PutRecord(rec: EntityRecord)
      requires Valid() && Enabled(w, Protocol.Publish(rec))
      modifies this`w, this`trace
      ensures Valid() && Steady(old(Now()), Now(), claimed, alone, {rec.uuid}) && Calm(old(Now()), Now())
      ensures w == old(w).(entityRecords := old(w).entityRecords[rec.uuid := rec])
      ensures Shown(old(trace), trace, rec.uuid, [rec.status])
    {
      ghost var h := PublishStep(origin, Now(), claimed, alone, rec, Protocol.Publish(rec));
      w := Next(w, Protocol.Publish(rec));
      trace := h.trace;
      assert Now() == h;
    }

    /** Others act, then the entity record is put again. */
    method Publish(rec: EntityRecord)
      requires Valid() && rec.uuid in claimed && rec.uuid in w.entityRecords && w.entityRecords[rec.uuid].id == rec.id
      modifies this`w, this`trace
      ensures Valid() && Steady(old(Now()), Now(), claimed, alone, {rec.uuid})
      ensures alone ==> Calm(old(Now()), Now())
      ensures rec.uuid in w.entityRecords && w.entityRecords[rec.uuid] == rec
      ensures Shown(old(trace), trace, rec.uuid, [rec.status])
    {
      Others();
      ghost var waited := Now();
      PublishableStays(old(Now()), waited, claimed, alone, rec);
      PutRecord(rec);
      WaitedThen(old(Now()), waited, Now(), claimed, alone, {rec.uuid});
    }
  }
}
