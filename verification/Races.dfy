/** Runs from the start that show how the conditions of the exact results fail: serialised calls
    whose reads and writes overlap, a late message after an unserialised undefine, and an undefine
    away from the owner. */
module Races {
  import opened Model
  import opened Hypervisor
  import opened Protocol
  import opened Runs
  import opened Replication
  import opened Resources
  import opened Conservation
  import opened Integrity
  import opened Calls
  import opened AgentSteps
  import opened Location

  /** A system at its start with a descriptor that a node can host, and a UUID to draw. */
  ghost predicate Stage(origin: World, n: Uuid, desc: FDUDescriptor, u: Uuid) {
    && Init(origin) && n in origin.nodes && n in origin.plugins && desc.hypervisor in origin.plugins[n]
    && desc.uuid.Some? && u !in origin.issued && u != desc.uuid.value
  }

  lemma Take(origin: World, h: History, l: Label) returns (h': History)
    requires Reached(origin, h.trace, h.world) && Enabled(h.world, l) && Serial(h.world, l)
    ensures h' == History(Next(h.world, l), h.trace + [l]) && Reached(origin, h'.trace, h'.world)
  {
    ReachedStep(origin, h, l);
    h' := History(Next(h.world, l), h.trace + [l]);
  }

  lemma Begin(origin: World, n: Uuid, desc: FDUDescriptor, u: Uuid) returns (h: History)
    requires Stage(origin, n, desc, u)
    ensures Reached(origin, h.trace, h.world) && h.trace == [Onboard(desc)]
    ensures h.world == origin.(catalog := map[desc.uuid.value := desc], issued := origin.issued + {desc.uuid.value})
  {
    h := Take(origin, History(origin, []), Onboard(desc));
    assert [] + [Onboard(desc)] == [Onboard(desc)];
  }

  /** A first read leaves everything but the reads held. */
  lemma Read(origin: World, h: History, read: Read) returns (h': History)
    requires Reached(origin, h.trace, h.world) && CanFetch(h.world, read) && !read.ToRemove? && !read.ToRemoveEntity?
    ensures Reached(origin, h'.trace, h'.world) && h'.trace == h.trace + [Fetch(read)]
    ensures h'.world == h.world.(held := h.world.held + multiset{read})
  {
    h' := Take(origin, h, Fetch(read));
  }

  /** offload_fdu up to its listing. */
  lemma ListNone(origin: World, h: History, f: Uuid) returns (h': History)
    requires Reached(origin, h.trace, h.world) && f in h.world.catalog
    requires forall i | i in h.world.records :: h.world.records[i].fduUuid != f
    ensures Reached(origin, h'.trace, h'.world) && h'.trace == h.trace + [Fetch(ToOffload(f)), Fetch(ToRemove(f))]
    ensures h'.world == h.world.(held := h.world.held + multiset{ToRemove(f)})
  {
    var h1 := Read(origin, h, ToOffload(f));
    h' := Take(origin, h1, Fetch(ToRemove(f)));
    HeldAfterListing(h.world.held, ToOffload(f), ToRemove(f));
    assert h.trace + [Fetch(ToOffload(f))] + [Fetch(ToRemove(f))]
      == h.trace + [Fetch(ToOffload(f)), Fetch(ToRemove(f))];
  }

  /** offload_entity up to its listing. */
  lemma ListNoRecord(origin: World, h: History, e: Uuid) returns (h': History)
    requires Reached(origin, h.trace, h.world) && e in h.world.entities
    requires forall r | r in h.world.entityRecords :: h.world.entityRecords[r].id != e
    ensures Reached(origin, h'.trace, h'.world)
    ensures h'.trace == h.trace + [Fetch(ToOffloadEntity(e)), Fetch(ToRemoveEntity(e))]
    ensures h'.world == h.world.(held := h.world.held + multiset{ToRemoveEntity(e)})
  {
    var h1 := Read(origin, h, ToOffloadEntity(e));
    h' := Take(origin, h1, Fetch(ToRemoveEntity(e)));
    HeldAfterListing(h.world.held, ToOffloadEntity(e), ToRemoveEntity(e));
    assert h.trace + [Fetch(ToOffloadEntity(e))] + [Fetch(ToRemoveEntity(e))]
        == h.trace + [Fetch(ToOffloadEntity(e)), Fetch(ToRemoveEntity(e))];
  }

  lemma HeldAfterListing(held: multiset<Read>, found: Read, listed: Read)
    ensures held + multiset{found} - multiset{found} + multiset{listed} == held + multiset{listed}
  {
  }

  lemma RemoveDescriptor(origin: World, h: History, f: Uuid) returns (h': History)
    requires Reached(origin, h.trace, h.world) && ToRemove(f) in h.world.held
    ensures Reached(origin, h'.trace, h'.world) && h'.trace == h.trace + [Offload(f)]
    ensures h'.world == h.world.(catalog := h.world.catalog - {f}, held := h.world.held - multiset{ToRemove(f)})
  {
    h' := Take(origin, h, Offload(f));
  }

  /** The node after a define whose message has been delivered. */
  function DefinedNode(node: Node, rec: FDURecord): Node {
    node.(local := node.local[rec.uuid := rec], cache := node.cache[rec.uuid := rec])
  }

  /** The plugin call of a define, its message and its return. */
  lemma DefineToReturn(origin: World, h: History, n: Uuid, f: Uuid, u: Uuid) returns (h': History)
    requires Reached(origin, h.trace, h.world) && n in h.world.nodes && h.world.nodes[n].fifo == []
    requires ToDefine(n, f) in h.world.held && u !in h.world.issued && u !in h.world.inflight
    ensures Reached(origin, h'.trace, h'.world) && h'.trace == h.trace + [DefineCall(n, f, u), Deliver(n), Return(u)]
    ensures var rec := NewInstance(n, f, u);
      h'.world == h.world.(nodes := h.world.nodes[n := DefinedNode(h.world.nodes[n], rec)],
                           records := h.world.records[u := rec],
                           held := h.world.held - multiset{ToDefine(n, f)}, issued := h.world.issued + {u})
  {
    var rec := NewInstance(n, f, u);
    var h1 := Take(origin, h, DefineCall(n, f, u));
    assert h1.world.nodes[n].fifo == [rec] && [rec][1..] == [];
    var h2 := Take(origin, h1, Deliver(n));
    h' := Take(origin, h2, Return(u));
    assert h'.world.nodes == h.world.nodes[n := DefinedNode(h.world.nodes[n], rec)];
    assert h'.world.inflight == h.world.inflight;
    assert h.trace + [DefineCall(n, f, u)] + [Deliver(n)] + [Return(u)]
      == h.trace + [DefineCall(n, f, u), Deliver(n), Return(u)];
  }

  lemma Unnamed(w: World, n: Uuid, u: Uuid)
    requires n in w.nodes && u in w.nodes[n].local && w.nodes[n].local[u].fduUuid !in w.catalog
    ensures !InstancesNamed(w)
  {
  }

  /** The descriptor is offloaded after define_fdu has read it and before it calls the plugin: at the
      end nothing is under way, and the instance is of no catalogued descriptor. */
  lemma OffloadAfterRead(origin: World, n: Uuid, desc: FDUDescriptor, u: Uuid) returns (h: History)
    requires Stage(origin, n, desc, u)
    ensures Reached(origin, h.trace, h.world) && h.world.inflight == map[] && h.world.held == multiset{}
    ensures var f := desc.uuid.value;
      h.trace == [Onboard(desc), Fetch(ToDefine(n, f)), Fetch(ToOffload(f)), Fetch(ToRemove(f)), Offload(f)]
                 + [DefineCall(n, f, u), Deliver(n), Return(u)]
    ensures !InstancesNamed(h.world)
  {
    var f := desc.uuid.value;
    var h3 := ReadThenOffloaded(origin, n, desc, u);
    h := DefineToReturn(origin, h3, n, f, u);
    Unnamed(h.world, n, u);
  }

  lemma ReadThenOffloaded(origin: World, n: Uuid, desc: FDUDescriptor, u: Uuid) returns (h: History)
    requires Stage(origin, n, desc, u)
    ensures Reached(origin, h.trace, h.world)
    ensures var f := desc.uuid.value;
      && h.trace == [Onboard(desc), Fetch(ToDefine(n, f)), Fetch(ToOffload(f)), Fetch(ToRemove(f)), Offload(f)]
      && h.world == origin.(held := multiset{ToDefine(n, f)}, issued := origin.issued + {f})
  {
    var f := desc.uuid.value;
    var h1 := DescriptorRead(origin, n, desc, u);
    var h2 := ListNone(origin, h1, f);
    h := RemoveDescriptor(origin, h2, f);
  }

  lemma DescriptorRead(origin: World, n: Uuid, desc: FDUDescriptor, u: Uuid) returns (h: History)
    requires Stage(origin, n, desc, u)
    ensures Reached(origin, h.trace, h.world)
    ensures var f := desc.uuid.value;
      && h.trace == [Onboard(desc), Fetch(ToDefine(n, f))]
      && h.world == origin.(catalog := map[f := desc], held := multiset{ToDefine(n, f)}, issued := origin.issued + {f})
  {
    var h0 := Begin(origin, n, desc, u);
    h := Read(origin, h0, ToDefine(n, desc.uuid.value));
  }

  /** A define runs to its return after offload_fdu has listed no instance and before it removes the
      descriptor. */
  lemma DefineAfterListing(origin: World, n: Uuid, desc: FDUDescriptor, u: Uuid) returns (h: History)
    requires Stage(origin, n, desc, u)
    ensures Reached(origin, h.trace, h.world) && h.world.inflight == map[] && h.world.held == multiset{}
    ensures var f := desc.uuid.value;
      h.trace == [Onboard(desc), Fetch(ToOffload(f)), Fetch(ToRemove(f)), Fetch(ToDefine(n, f))]
                 + [DefineCall(n, f, u), Deliver(n), Return(u)] + [Offload(f)]
    ensures !InstancesNamed(h.world)
  {
    var f := desc.uuid.value;
    var h2 := ListedThenRead(origin, n, desc, u);
    var h3 := DefineToReturn(origin, h2, n, f, u);
    assert h3.world.held == multiset{ToRemove(f)};
    h := RemoveDescriptor(origin, h3, f);
    Unnamed(h.world, n, u);
  }

  lemma ListedThenRead(origin: World, n: Uuid, desc: FDUDescriptor, u: Uuid) returns (h: History)
    requires Stage(origin, n, desc, u)
    ensures Reached(origin, h.trace, h.world)
    ensures var f := desc.uuid.value;
      && h.trace == [Onboard(desc), Fetch(ToOffload(f)), Fetch(ToRemove(f)), Fetch(ToDefine(n, f))]
      && h.world
         == origin.(catalog := map[f := desc], held := multiset{ToRemove(f), ToDefine(n, f)},
                    issued := origin.issued + {f})
  {
    var f := desc.uuid.value;
    var h0 := Begin(origin, n, desc, u);
    var h1 := ListNone(origin, h0, f);
    h := Read(origin, h1, ToDefine(n, f));
  }

  lemma BeginEntity(origin: World, entity: EntityDescriptor, r: Uuid) returns (h: History)
    requires Init(origin) && Filled(entity) && r !in origin.issued && r != entity.uuid.value
    requires forall k | 0 <= k < |entity.fdus| :: entity.fdus[k].uuid.value != r
    ensures Reached(origin, h.trace, h.world) && h.trace == [OnboardEntity(entity)]
    ensures h.world == origin.(entities := map[entity.uuid.value := entity], issued := h.world.issued)
    ensures r !in h.world.issued
  {
    h := Take(origin, History(origin, []), OnboardEntity(entity));
    assert [] + [OnboardEntity(entity)] == [OnboardEntity(entity)];
  }

  lemma RemoveEntity(origin: World, h: History, e: Uuid) returns (h': History)
    requires Reached(origin, h.trace, h.world) && ToRemoveEntity(e) in h.world.held
    ensures Reached(origin, h'.trace, h'.world) && h'.trace == h.trace + [OffloadEntity(e)]
    ensures h'.world == h.world.(entities := h.world.entities - {e}, held := h.world.held - multiset{ToRemoveEntity(e)})
  {
    h' := Take(origin, h, OffloadEntity(e));
  }

  /** An entity is offloaded after schedule_entity has read it and before it stores its record. */
  lemma OffloadEntityAfterRead(origin: World, entity: EntityDescriptor, r: Uuid) returns (h: History)
    requires Init(origin) && Filled(entity) && r !in origin.issued && r != entity.uuid.value
    requires forall k | 0 <= k < |entity.fdus| :: entity.fdus[k].uuid.value != r
    ensures Reached(origin, h.trace, h.world) && h.world.inflight == map[] && h.world.held == multiset{}
    ensures var e := entity.uuid.value;
      h.trace == [OnboardEntity(entity), Fetch(ToInstantiate(e)), Fetch(ToOffloadEntity(e)), Fetch(ToRemoveEntity(e)),
                  OffloadEntity(e), Instantiate(EntityRecord(r, e, ONBOARDING, []))]
    ensures !EntitiesNamed(h.world)
  {
    var e := entity.uuid.value;
    var h3 := EntityReadThenOffloaded(origin, entity, r);
    h := InstantiateStep(origin, h3, {}, multiset{ToInstantiate(e)}, false, EntityRecord(r, e, ONBOARDING, []));
    assert r in h.world.entityRecords && h.world.entityRecords[r].id !in h.world.entities;
  }

  lemma EntityReadThenOffloaded(origin: World, entity: EntityDescriptor, r: Uuid) returns (h: History)
    requires Init(origin) && Filled(entity) && r !in origin.issued && r != entity.uuid.value
    requires forall k | 0 <= k < |entity.fdus| :: entity.fdus[k].uuid.value != r
    ensures Reached(origin, h.trace, h.world)
    ensures var e := entity.uuid.value;
      && h.trace
         == [OnboardEntity(entity), Fetch(ToInstantiate(e)), Fetch(ToOffloadEntity(e)), Fetch(ToRemoveEntity(e)),
             OffloadEntity(e)]
      && h.world == origin.(held := multiset{ToInstantiate(e)}, issued := h.world.issued) && r !in h.world.issued
  {
    var e := entity.uuid.value;
    var h1 := EntityRead(origin, entity, r);
    var h2 := ListNoRecord(origin, h1, e);
    h := RemoveEntity(origin, h2, e);
    assert h.world.entities == origin.entities;
  }

  lemma EntityRead(origin: World, entity: EntityDescriptor, r: Uuid) returns (h: History)
    requires Init(origin) && Filled(entity) && r !in origin.issued && r != entity.uuid.value
    requires forall k | 0 <= k < |entity.fdus| :: entity.fdus[k].uuid.value != r
    ensures Reached(origin, h.trace, h.world) && r !in h.world.issued
    ensures var e := entity.uuid.value;
      && h.trace == [OnboardEntity(entity), Fetch(ToInstantiate(e))]
      && h.world == origin.(entities := map[e := entity], held := multiset{ToInstantiate(e)}, issued := h.world.issued)
  {
    var h0 := BeginEntity(origin, entity, r);
    h := Read(origin, h0, ToInstantiate(entity.uuid.value));
  }

  // ---------------------------------------------------------------- an instance that was just defined

  lemma OneDefined(origin: World, n: Uuid, desc: FDUDescriptor, u: Uuid) returns (h: History)
    requires Stage(origin, n, desc, u)
    ensures Reached(origin, h.trace, h.world)
    ensures var f := desc.uuid.value;
      h.trace == [Onboard(desc), Fetch(ToDefine(n, f)), DefineCall(n, f, u), Deliver(n), Return(u)]
    ensures var f := desc.uuid.value;
      h.world
        == origin.(nodes := origin.nodes[n := DefinedNode(EMPTY_NODE, NewInstance(n, f, u))], catalog := map[f := desc],
                         records := map[u := NewInstance(n, f, u)], issued := origin.issued + {f, u})
  {
    var f := desc.uuid.value;
    var h1 := DescriptorRead(origin, n, desc, u);
    h := DefineToReturn(origin, h1, n, f, u);
  }

  /** An undefine of it on another node is refused and leaves it as it is; the owner would remove it. */
  lemma UndefineElsewhereDiffers(origin: World, n: Uuid, at: Uuid, desc: FDUDescriptor, u: Uuid) returns (h: History)
    requires Stage(origin, n, desc, u) && at in origin.nodes && at != n
    ensures Reached(origin, h.trace, h.world) && Sound(h.world) && u !in h.world.inflight
    ensures AtRest(h.world, u, NewInstance(n, desc.uuid.value, u)) && h.world.nodes.Keys == origin.nodes.Keys
    ensures var (w', r, _) := Request(h.world, at, Undefine, u);
      w' == h.world && r == Err(TransitionNotAllowed)
    ensures Request(h.world, n, Undefine, u).1.Ok?
  {
    h := OneDefined(origin, n, desc, u);
    ReachedFacts(origin, h.trace, h.world);
    RequestAtOwner(h.world, at, Undefine, u);
    RequestAtOwner(h.world, n, Undefine, u);
    AtOwnerCalls(h.world, Clean, u);
    AtOwnerCalls(h.world, Undefine, u);
    RefusedChangesNothing(h.world, n, Clean, u);
    Location.UndefineAnswered(h.world, n, u);
  }

  // ---------------------------------------------------------------- an undefine that an offload outwaits

  /** The instance u is being undefined and v has just been defined, while an offload has found their
      descriptor and not yet listed. */
  lemma OffloadOutwaits(origin: World, n: Uuid, desc: FDUDescriptor, u: Uuid, v: Uuid) returns (h: History)
    requires Stage(origin, n, desc, u) && Stage(origin, n, desc, v) && u != v
    ensures Reached(origin, h.trace, h.world)
    ensures var f := desc.uuid.value;
      h.trace == [Onboard(desc), Fetch(ToDefine(n, f)), DefineCall(n, f, u), Deliver(n), Return(u)]
                 + [Fetch(ToDefine(n, f)), Fetch(ToOffload(f)), PluginCall(n, Undefine, u), DefineCall(n, f, v)]
    ensures h.world == Outwaited(origin, n, desc, u, v)
  {
    var f := desc.uuid.value;
    var h0 := OneDefined(origin, n, desc, u);
    var h1 := Read(origin, h0, ToDefine(n, f));
    var h2 := Read(origin, h1, ToOffload(f));
    h := UndefinedAndDefined(origin, h2, n, desc, u, v);
    FourMore(h0.trace, Fetch(ToDefine(n, f)), Fetch(ToOffload(f)), PluginCall(n, Undefine, u), DefineCall(n, f, v));
  }

  lemma FourMore(t: seq<Label>, a: Label, b: Label, c: Label, d: Label)
    ensures t + [a] + [b] + [c] + [d] == t + [a, b, c, d]
  {
  }

  /** The state that this run leads to. */
  ghost function Outwaited(origin: World, n: Uuid, desc: FDUDescriptor, u: Uuid, v: Uuid): World
    requires n in origin.nodes && desc.uuid.Some?
  {
    var f := desc.uuid.value;
    var rec := NewInstance(n, f, v);
    origin.(nodes := origin.nodes[n := DefinedNode(EMPTY_NODE, rec).(fifo := [rec])], catalog := map[f := desc],
            records := map[u := NewInstance(n, f, u)], inflight := map[u := Call.Removing(n), v := Await(n, DEFINED)],
            held := multiset{ToOffload(f)}, issued := origin.issued + {f, u, v})
  }

  lemma UndefinedAndDefined(origin: World, h: History, n: Uuid, desc: FDUDescriptor, u: Uuid, v: Uuid)
    returns (h': History)
    requires n in origin.nodes && desc.uuid.Some? && origin.inflight == map[]
    requires Reached(origin, h.trace, h.world) && h.world == OneAndReads(origin, n, desc, u) && v !in h.world.issued
    ensures var f := desc.uuid.value;
      h'.trace == h.trace + [PluginCall(n, Undefine, u)] + [DefineCall(n, f, v)]
    ensures Reached(origin, h'.trace, h'.world) && h'.world == Outwaited(origin, n, desc, u, v)
  {
    var h1 := OneUndefined(origin, h, n, desc, u);
    h' := DefineCalled(origin, h1, n, desc.uuid.value, v);
    OutwaitedIs(origin, h1.world, h'.world, n, desc, u, v);
  }

  lemma OneUndefined(origin: World, h: History, n: Uuid, desc: FDUDescriptor, u: Uuid) returns (h': History)
    requires n in origin.nodes && desc.uuid.Some? && origin.inflight == map[]
    requires Reached(origin, h.trace, h.world) && h.world == OneAndReads(origin, n, desc, u)
    ensures h'.trace == h.trace + [PluginCall(n, Undefine, u)]
    ensures Reached(origin, h'.trace, h'.world) && h'.world == OneLess(origin, n, desc, u)
  {
    h' := UndefineCalled(origin, h, n, u);
    OneLessIs(origin, h.world, h'.world, n, desc, u);
  }

  lemma OneLessIs(origin: World, w: World, w': World, n: Uuid, desc: FDUDescriptor, u: Uuid)
    requires n in origin.nodes && desc.uuid.Some? && origin.inflight == map[] && w == OneAndReads(origin, n, desc, u)
    requires w' == w.(nodes := w.nodes[n := RemovedNode(w.nodes[n], u)],
                      inflight := w.inflight[u := Call.Removing(n)])
    ensures w' == OneLess(origin, n, desc, u)
  {
    Emptied(NewInstance(n, desc.uuid.value, u));
  }

  /** The same after the plugin call of the instance's undefine. */
  ghost function OneLess(origin: World, n: Uuid, desc: FDUDescriptor, u: Uuid): World
    requires n in origin.nodes && desc.uuid.Some?
  {
    OneAndReads(origin, n, desc, u).(nodes := origin.nodes[n := EMPTY_NODE], inflight := map[u := Call.Removing(n)])
  }

  lemma OutwaitedIs(origin: World, w: World, w': World, n: Uuid, desc: FDUDescriptor, u: Uuid, v: Uuid)
    requires n in origin.nodes && desc.uuid.Some? && w == OneLess(origin, n, desc, u)
    requires w' == w.(nodes := w.nodes[n := Put(w.nodes[n], NewInstance(n, desc.uuid.value, v))],
                      inflight := w.inflight[v := Await(n, DEFINED)],
                      held := w.held - multiset{ToDefine(n, desc.uuid.value)}, issued := w.issued + {v})
    ensures w' == Outwaited(origin, n, desc, u, v)
  {
    FirstPut(NewInstance(n, desc.uuid.value, v));
    OnlyOffloadHeld(n, desc.uuid.value);
  }

  /** One defined instance, and the reads of a define and an offload. */
  ghost function OneAndReads(origin: World, n: Uuid, desc: FDUDescriptor, u: Uuid): World
    requires n in origin.nodes && desc.uuid.Some?
  {
    var f := desc.uuid.value;
    origin.(nodes := origin.nodes[n := DefinedNode(EMPTY_NODE, NewInstance(n, f, u))], catalog := map[f := desc],
            records := map[u := NewInstance(n, f, u)], held := multiset{ToDefine(n, f)} + multiset{ToOffload(f)},
            issued := origin.issued + {f, u})
  }

  lemma OnlyOffloadHeld(n: Uuid, f: Uuid)
    ensures multiset{ToDefine(n, f)} + multiset{ToOffload(f)} - multiset{ToDefine(n, f)} == multiset{ToOffload(f)}
  {
  }

  lemma FirstPut(rec: FDURecord)
    ensures Put(EMPTY_NODE, rec) == DefinedNode(EMPTY_NODE, rec).(fifo := [rec])
  {
    assert [] + [rec] == [rec];
  }

  lemma UndefineCalled(origin: World, h: History, n: Uuid, u: Uuid) returns (h': History)
    requires Reached(origin, h.trace, h.world) && n in h.world.nodes && u in h.world.nodes[n].local
    requires h.world.nodes[n].local[u].status == DEFINED
    requires u !in h.world.inflight && u in h.world.records && h.world.records[u].node == n
    ensures Reached(origin, h'.trace, h'.world) && h'.trace == h.trace + [PluginCall(n, Undefine, u)]
    ensures h'.world == h.world.(nodes := h.world.nodes[n := RemovedNode(h.world.nodes[n], u)],
                                 inflight := h.world.inflight[u := Call.Removing(n)])
  {
    h' := Take(origin, h, PluginCall(n, Undefine, u));
  }

  lemma DefineCalled(origin: World, h: History, n: Uuid, f: Uuid, v: Uuid) returns (h': History)
    requires Reached(origin, h.trace, h.world) && n in h.world.nodes && ToDefine(n, f) in h.world.held
    requires v !in h.world.issued
    ensures Reached(origin, h'.trace, h'.world) && h'.trace == h.trace + [DefineCall(n, f, v)]
    ensures h'.world == h.world.(nodes := h.world.nodes[n := Put(h.world.nodes[n], NewInstance(n, f, v))],
                                 inflight := h.world.inflight[v := Await(n, DEFINED)],
                                 held := h.world.held - multiset{ToDefine(n, f)}, issued := h.world.issued + {v})
  {
    h' := Take(origin, h, DefineCall(n, f, v));
  }

  function RemovedNode(node: Node, u: Uuid): Node {
    node.(local := node.local - {u}, cache := node.cache - {u})
  }

  lemma Emptied(rec: FDURecord)
    ensures RemovedNode(DefinedNode(EMPTY_NODE, rec), rec.uuid) == EMPTY_NODE
  {
    assert RemovedNode(DefinedNode(EMPTY_NODE, rec), rec.uuid).local == map[];
  }

  /** Every reference holds in that state, no define is open and the offload would still list an
      instance; but the open calls are at odds, and when they just end, undefine first, the instance v is
      of no catalogued descriptor. */
  lemma OffloadAfterUndefine(origin: World, n: Uuid, desc: FDUDescriptor, u: Uuid, v: Uuid)
    returns (h: History, h': History)
    requires Stage(origin, n, desc, u) && Stage(origin, n, desc, v) && u != v
    ensures Reached(origin, h.trace, h.world) && InstancesNamed(h.world)
    ensures var f := desc.uuid.value;
      !Defining(h.world, f) && !CanFetch(h.world, ToRemove(f)) && Raced(h.world, f)
    ensures var f := desc.uuid.value;
      h'.trace == h.trace + [RemoveRecord(u), Fetch(ToRemove(f)), Offload(f)] + [Deliver(n)] + [Return(v)]
    ensures Reached(origin, h'.trace, h'.world) && h'.world.inflight == map[] && h'.world.held == multiset{}
    ensures !InstancesNamed(h'.world)
  {
    h := OffloadOutwaits(origin, n, desc, u, v);
    OutwaitedRaced(origin, h.world, n, desc, u, v);
    h' := CallsEnd(origin, h, n, desc, u, v);
  }

  lemma OutwaitedRaced(origin: World, w: World, n: Uuid, desc: FDUDescriptor, u: Uuid, v: Uuid)
    requires Stage(origin, n, desc, u) && Stage(origin, n, desc, v) && w == Outwaited(origin, n, desc, u, v) && u != v
    ensures InstancesNamed(w) && !Defining(w, desc.uuid.value) && !CanFetch(w, ToRemove(desc.uuid.value))
    ensures Raced(w, desc.uuid.value)
  {
    assert LiveOf(w, n, v, desc.uuid.value);
    OutwaitedLists(origin, w, n, desc, u, v);
    OutwaitedNamed(origin, w, n, desc, u, v);
  }

  lemma OutwaitedNamed(origin: World, w: World, n: Uuid, desc: FDUDescriptor, u: Uuid, v: Uuid)
    requires Stage(origin, n, desc, u) && Stage(origin, n, desc, v) && w == Outwaited(origin, n, desc, u, v) && u != v
    ensures InstancesNamed(w)
  {
  }

  lemma OutwaitedLists(origin: World, w: World, n: Uuid, desc: FDUDescriptor, u: Uuid, v: Uuid)
    requires Stage(origin, n, desc, u) && Stage(origin, n, desc, v) && w == Outwaited(origin, n, desc, u, v) && u != v
    ensures !CanFetch(w, ToRemove(desc.uuid.value)) && !Defining(w, desc.uuid.value)
  {
    assert w.records[u].fduUuid == desc.uuid.value;
  }

  lemma CallsEnd(origin: World, h: History, n: Uuid, desc: FDUDescriptor, u: Uuid, v: Uuid) returns (h': History)
    requires n in origin.nodes && desc.uuid.Some? && u != v
    requires Reached(origin, h.trace, h.world) && h.world == Outwaited(origin, n, desc, u, v)
    ensures var f := desc.uuid.value;
      h'.trace == h.trace + [RemoveRecord(u), Fetch(ToRemove(f)), Offload(f)] + [Deliver(n)] + [Return(v)]
    ensures Reached(origin, h'.trace, h'.world) && h'.world.inflight == map[] && h'.world.held == multiset{}
    ensures !InstancesNamed(h'.world)
  {
    var h1 := OffloadEnds(origin, h, n, desc, u, v);
    h' := DeliveredAndReturned(origin, h1, n, v, NewInstance(n, desc.uuid.value, v));
    assert h'.world.inflight == map[];
    Unnamed(h'.world, n, v);
  }

  lemma DeliveredAndReturned(origin: World, h: History, n: Uuid, v: Uuid, rec: FDURecord) returns (h': History)
    requires Reached(origin, h.trace, h.world) && n in h.world.nodes && h.world.nodes[n].fifo == [rec] && rec.uuid == v
    requires v in h.world.inflight && h.world.inflight[v] == Await(n, rec.status)
    ensures Reached(origin, h'.trace, h'.world) && h'.trace == h.trace + [Deliver(n)] + [Return(v)]
    ensures h'.world == h.world.(nodes := h.world.nodes[n := h.world.nodes[n].(fifo := [])],
                                 records := h.world.records[v := rec], inflight := h.world.inflight - {v})
  {
    assert [rec][1..] == [];
    var h1 := Take(origin, h, Deliver(n));
    h' := Take(origin, h1, Return(v));
  }

  lemma OffloadEnds(origin: World, h: History, n: Uuid, desc: FDUDescriptor, u: Uuid, v: Uuid) returns (h': History)
    requires n in origin.nodes && desc.uuid.Some? && u != v
    requires Reached(origin, h.trace, h.world) && h.world == Outwaited(origin, n, desc, u, v)
    ensures var f := desc.uuid.value;
      h'.trace == h.trace + [RemoveRecord(u), Fetch(ToRemove(f)), Offload(f)]
    ensures Reached(origin, h'.trace, h'.world)
    ensures h'.world == h.world.(catalog := map[], records := map[], inflight := map[v := Await(n, DEFINED)],
                                 held := multiset{})
  {
    var h1 := RecordGone(origin, h, n, desc, u, v);
    var h2 := NoneListed(origin, h1, desc.uuid.value);
    h' := RemoveDescriptor(origin, h2, desc.uuid.value);
  }

  lemma RecordGone(origin: World, h: History, n: Uuid, desc: FDUDescriptor, u: Uuid, v: Uuid) returns (h': History)
    requires n in origin.nodes && desc.uuid.Some? && u != v
    requires Reached(origin, h.trace, h.world) && h.world == Outwaited(origin, n, desc, u, v)
    ensures Reached(origin, h'.trace, h'.world) && h'.trace == h.trace + [RemoveRecord(u)]
    ensures h'.world == h.world.(records := map[], inflight := map[v := Await(n, DEFINED)])
  {
    h' := RecordRemoved(origin, h, u);
    assert h'.world.records == map[] && h'.world.inflight == map[v := Await(n, DEFINED)];
  }

  lemma RecordRemoved(origin: World, h: History, u: Uuid) returns (h': History)
    requires Reached(origin, h.trace, h.world) && Enabled(h.world, RemoveRecord(u))
    ensures Reached(origin, h'.trace, h'.world) && h'.trace == h.trace + [RemoveRecord(u)]
    ensures h'.world == h.world.(inflight := h.world.inflight - {u}, records := h.world.records - {u})
  {
    h' := Take(origin, h, RemoveRecord(u));
  }

  lemma NoneListed(origin: World, h: History, f: Uuid) returns (h': History)
    requires Reached(origin, h.trace, h.world) && h.world.records == map[] && h.world.held == multiset{ToOffload(f)}
    ensures Reached(origin, h'.trace, h'.world) && h'.trace == h.trace + [Fetch(ToRemove(f))]
    ensures h'.world == h.world.(held := multiset{ToRemove(f)})
  {
    h' := Take(origin, h, Fetch(ToRemove(f)));
  }

  // ---------------------------------------------------------------- a record that comes back

  /** w is what a run, serialised or not, leads to from the start. */
  ghost predicate Led(origin: World, trace: seq<Label>, w: World) {
    Init(origin) && Legal(origin, trace) && w == Exec(origin, trace)
  }

  lemma Step(origin: World, h: History, l: Label) returns (h': History)
    requires Led(origin, h.trace, h.world) && Enabled(h.world, l)
    ensures h' == History(Next(h.world, l), h.trace + [l]) && Led(origin, h'.trace, h'.world)
  {
    ExecAppend(origin, h.trace, l);
    h' := History(Next(h.world, l), h.trace + [l]);
  }

  /** The instance in a node's store has this status, and these are the statuses on their way. */
  ghost predicate Showing(w: World, n: Uuid, u: Uuid, status: FDUState, sent: seq<FDUState>) {
    && n in w.nodes && u in w.nodes[n].local && w.nodes[n].local[u].uuid == u && w.nodes[n].local[u].status == status
    && u in w.records && |w.nodes[n].fifo| == |sent|
    && forall k | 0 <= k < |sent| :: w.nodes[n].fifo[k].uuid == u && w.nodes[n].fifo[k].status == sent[k]
  }

  lemma Cleans(origin: World, h: History, n: Uuid, u: Uuid)
    requires Led(origin, h.trace, h.world) && WellFormedRun(h.trace) && Showing(h.world, n, u, CONFIGURED, [CONFIGURED])
    ensures Structure(h.world) && Apply(h.world.nodes[n], h.world.catalog, Clean, u).1.Ok?
  {
    InitStructure(origin);
    RunKeepsStructure(origin, h.trace);
    LedConserved(origin, h, n);
    CleanSucceeds(h.world.nodes[n], h.world.catalog, u);
  }

  lemma CleanSucceeds(node: Node, catalog: map<Uuid, FDUDescriptor>, i: Uuid)
    requires Conserved(node.net, node.local) && i in node.local && node.local[i].status == CONFIGURED
    ensures Apply(node, catalog, Clean, i).1.Ok?
  {
    CleanNeverFails(node, i);
    ApplyClean(node, catalog, i);
  }

  lemma ApplyClean(node: Node, catalog: map<Uuid, FDUDescriptor>, i: Uuid)
    ensures Apply(node, catalog, Clean, i) == Hypervisor.Clean(node, i)
  {
  }

  lemma LedConserved(origin: World, h: History, n: Uuid)
    requires Led(origin, h.trace, h.world) && WellFormedRun(h.trace) && n in h.world.nodes
    ensures Conserved(h.world.nodes[n].net, h.world.nodes[n].local)
  {
    RunNodes(origin, h.trace);
    ReachableConserved(origin, h.trace, n);
  }

  lemma Configures(origin: World, h: History, n: Uuid, u: Uuid, d: ConfigureDraws)
    requires Reached(origin, h.trace, h.world) && WellFormedRun(h.trace) && Showing(h.world, n, u, DEFINED, [])
    requires Enabled(h.world, PluginCall(n, PluginOp.Configure(d), u))
    requires Serial(h.world, PluginCall(n, PluginOp.Configure(d), u))
    requires h.world.records[u].fduUuid in h.world.catalog
    ensures Structure(h.world) && Apply(h.world.nodes[n], h.world.catalog, PluginOp.Configure(d), u).1.Ok?
  {
    ReachedFacts(origin, h.trace, h.world);
    QuietRecord(h.world, u);
    ConfigureOk(origin, h, n, u, d);
  }

  lemma ConfigureOk(origin: World, h: History, n: Uuid, u: Uuid, d: ConfigureDraws)
    requires Reached(origin, h.trace, h.world) && WellFormedRun(h.trace)
    requires Callable(h.world, n, PluginOp.Configure(d), u)
    requires h.world.records[u].status == DEFINED && h.world.records[u].fduUuid in h.world.catalog
    ensures Apply(h.world.nodes[n], h.world.catalog, PluginOp.Configure(d), u).1.Ok?
  {
    ReachedConserved(origin, h.trace, h.world);
    LifecycleAnswer(h.world, n, CONFIGURE, PluginOp.Configure(d), u);
    assert PluginRefusal(h.world.catalog, CONFIGURE, h.world.records[u]) == None;
  }

  lemma ConfiguredOnce(origin: World, h: History, n: Uuid, u: Uuid, d: ConfigureDraws) returns (h': History)
    requires Reached(origin, h.trace, h.world) && WellFormedRun(h.trace) && Showing(h.world, n, u, DEFINED, [])
    requires Enabled(h.world, PluginCall(n, PluginOp.Configure(d), u))
    requires Serial(h.world, PluginCall(n, PluginOp.Configure(d), u))
    requires h.world.records[u].fduUuid in h.world.catalog
    ensures Led(origin, h'.trace, h'.world) && h'.trace == h.trace + [PluginCall(n, PluginOp.Configure(d), u)]
    ensures Showing(h'.world, n, u, CONFIGURED, [CONFIGURED])
  {
    Configures(origin, h, n, u, d);
    h' := CallShown(origin, h, n, u, PluginOp.Configure(d), DEFINED, []);
    assert [] + [CONFIGURED] == [CONFIGURED];
  }

  /** A successful plugin call sends its record after those already on their way. */
  lemma CallShown(origin: World, h: History, n: Uuid, u: Uuid, op: PluginOp, status: FDUState, sent: seq<FDUState>)
    returns (h': History)
    requires Led(origin, h.trace, h.world) && Structure(h.world) && Showing(h.world, n, u, status, sent)
    requires Enabled(h.world, PluginCall(n, op, u)) && !op.Undefine?
    requires Apply(h.world.nodes[n], h.world.catalog, op, u).1.Ok?
    ensures Led(origin, h'.trace, h'.world) && h'.trace == h.trace + [PluginCall(n, op, u)]
    ensures Showing(h'.world, n, u, CallAfter(n, op).status, sent + [CallAfter(n, op).status])
  {
    PluginEffect(h.world, n, op, u);
    h' := Step(origin, h, PluginCall(n, op, u));
    SentMore(h.world, h'.world, n, u, status, sent, CallAfter(n, op).status);
  }

  lemma SentMore(w: World, w': World, n: Uuid, u: Uuid, status: FDUState, sent: seq<FDUState>, status': FDUState)
    requires Showing(w, n, u, status, sent) && n in w'.nodes && w'.records == w.records
    requires u in w'.nodes[n].local && w'.nodes[n].local[u].uuid == u && w'.nodes[n].local[u].status == status'
    requires w'.nodes[n].fifo == w.nodes[n].fifo + [w'.nodes[n].local[u]]
    ensures Showing(w', n, u, status', sent + [status'])
  {
  }

  lemma CleanedAtOnce(origin: World, h: History, n: Uuid, u: Uuid) returns (h': History)
    requires Led(origin, h.trace, h.world) && WellFormedRun(h.trace) && Showing(h.world, n, u, CONFIGURED, [CONFIGURED])
    ensures Led(origin, h'.trace, h'.world) && h'.trace == h.trace + [PluginCall(n, Clean, u)]
    ensures Showing(h'.world, n, u, DEFINED, [CONFIGURED, DEFINED])
  {
    Cleans(origin, h, n, u);
    h' := CallShown(origin, h, n, u, Clean, CONFIGURED, [CONFIGURED]);
    assert [CONFIGURED] + [DEFINED] == [CONFIGURED, DEFINED];
  }

  lemma RemovedAtOnce(origin: World, h: History, n: Uuid, u: Uuid) returns (h': History)
    requires Led(origin, h.trace, h.world) && Showing(h.world, n, u, DEFINED, [CONFIGURED, DEFINED])
    ensures Led(origin, h'.trace, h'.world) && h'.trace == h.trace + [PluginCall(n, Undefine, u), RemoveRecord(u)]
    ensures n in h'.world.nodes && u !in h'.world.nodes[n].local && u !in h'.world.records && u !in h'.world.inflight
    ensures h'.world.nodes[n].fifo != [] && h'.world.nodes[n].fifo[0].uuid == u
  {
    var h1 := Step(origin, h, PluginCall(n, Undefine, u));
    h' := Step(origin, h1, RemoveRecord(u));
    assert h.trace + [PluginCall(n, Undefine, u)] + [RemoveRecord(u)]
      == h.trace + [PluginCall(n, Undefine, u), RemoveRecord(u)];
  }

  /** Plugin calls that do not wait for the ones before them: after the removal a message that was
      still on its way brings the global record of the removed instance back. */
  lemma RecordComesBack(origin: World, n: Uuid, desc: FDUDescriptor, u: Uuid, d: ConfigureDraws) returns (h: History)
    requires Stage(origin, n, desc, u) && WellFormedDescriptor(desc)
    requires DrawsFit(desc, d) && FreshDraws(d, origin.issued + {desc.uuid.value, u})
    ensures Led(origin, h.trace, h.world)
    ensures var f := desc.uuid.value;
      h.trace == [Onboard(desc), Fetch(ToDefine(n, f)), DefineCall(n, f, u), Deliver(n), Return(u)]
                 + [PluginCall(n, PluginOp.Configure(d), u)]
                 + [PluginCall(n, Clean, u), PluginCall(n, Undefine, u), RemoveRecord(u), Deliver(n)]
    ensures u in h.world.records && u !in h.world.inflight && n in h.world.nodes && u !in h.world.nodes[n].local
  {
    var h1 := OneConfigured(origin, n, desc, u, d);
    h := RemovedAndBack(origin, h1, n, u);
  }

  lemma DefinedShows(origin: World, w: World, n: Uuid, desc: FDUDescriptor, u: Uuid, d: ConfigureDraws)
    requires Stage(origin, n, desc, u) && DrawsFit(desc, d) && FreshDraws(d, origin.issued + {desc.uuid.value, u})
    requires var f := desc.uuid.value;
      w == origin.(nodes := origin.nodes[n := DefinedNode(EMPTY_NODE, NewInstance(n, f, u))], catalog := map[f := desc],
                   records := map[u := NewInstance(n, f, u)], issued := origin.issued + {f, u})
    ensures Showing(w, n, u, DEFINED, []) && DrawsAllowed(w, n, PluginOp.Configure(d), u)
    ensures u !in w.inflight && w.records[u].node == n
  {
  }

  lemma OneConfigured(origin: World, n: Uuid, desc: FDUDescriptor, u: Uuid, d: ConfigureDraws) returns (h: History)
    requires Stage(origin, n, desc, u) && WellFormedDescriptor(desc)
    requires DrawsFit(desc, d) && FreshDraws(d, origin.issued + {desc.uuid.value, u})
    ensures Led(origin, h.trace, h.world) && WellFormedRun(h.trace)
    ensures var f := desc.uuid.value;
      h.trace == [Onboard(desc), Fetch(ToDefine(n, f)), DefineCall(n, f, u), Deliver(n), Return(u)]
                 + [PluginCall(n, PluginOp.Configure(d), u)]
    ensures Showing(h.world, n, u, CONFIGURED, [CONFIGURED])
  {
    var h0 := OneConfigurable(origin, n, desc, u, d);
    WellFormedStep(h0.trace, PluginCall(n, PluginOp.Configure(d), u));
    h := ConfiguredOnce(origin, h0, n, u, d);
  }

  lemma OneConfigurable(origin: World, n: Uuid, desc: FDUDescriptor, u: Uuid, d: ConfigureDraws) returns (h: History)
    requires Stage(origin, n, desc, u) && WellFormedDescriptor(desc)
    requires DrawsFit(desc, d) && FreshDraws(d, origin.issued + {desc.uuid.value, u})
    ensures Reached(origin, h.trace, h.world) && WellFormedRun(h.trace) && Showing(h.world, n, u, DEFINED, [])
    ensures var f := desc.uuid.value;
      h.trace == [Onboard(desc), Fetch(ToDefine(n, f)), DefineCall(n, f, u), Deliver(n), Return(u)]
    ensures Enabled(h.world, PluginCall(n, PluginOp.Configure(d), u))
    ensures Serial(h.world, PluginCall(n, PluginOp.Configure(d), u)) && h.world.records[u].fduUuid in h.world.catalog
  {
    h := OneDefined(origin, n, desc, u);
    WellFormedStart(h.trace, desc);
    DefinedShows(origin, h.world, n, desc, u, d);
    DefinedConfigurable(h.world, n, u, d);
  }

  lemma DefinedConfigurable(w: World, n: Uuid, u: Uuid, d: ConfigureDraws)
    requires Showing(w, n, u, DEFINED, []) && DrawsAllowed(w, n, PluginOp.Configure(d), u)
    requires u !in w.inflight && w.records[u].node == n
    ensures Enabled(w, PluginCall(n, PluginOp.Configure(d), u)) && Serial(w, PluginCall(n, PluginOp.Configure(d), u))
  {
  }

  lemma RemovedAndBack(origin: World, h: History, n: Uuid, u: Uuid) returns (h': History)
    requires Led(origin, h.trace, h.world) && WellFormedRun(h.trace) && Showing(h.world, n, u, CONFIGURED, [CONFIGURED])
    ensures Led(origin, h'.trace, h'.world)
    ensures h'.trace == h.trace + [PluginCall(n, Clean, u), PluginCall(n, Undefine, u), RemoveRecord(u), Deliver(n)]
    ensures u in h'.world.records && u !in h'.world.inflight && n in h'.world.nodes && u !in h'.world.nodes[n].local
  {
    var h2 := CleanedAtOnce(origin, h, n, u);
    var h3 := RemovedAtOnce(origin, h2, n, u);
    h' := Step(origin, h3, Deliver(n));
    assert h'.trace == h.trace + [PluginCall(n, Clean, u), PluginCall(n, Undefine, u), RemoveRecord(u), Deliver(n)];
  }

  lemma WellFormedStart(trace: seq<Label>, desc: FDUDescriptor)
    requires WellFormedDescriptor(desc) && |trace| > 0 && trace[0] == Onboard(desc)
    requires forall l | l in trace[1..] :: !l.Onboard?
    ensures WellFormedRun(trace)
  {
    forall l | l in trace ensures WellFormedLabel(l) {
      assert l == trace[0] || l in trace[1..];
    }
  }

  lemma WellFormedStep(trace: seq<Label>, l: Label)
    requires WellFormedRun(trace) && !l.Onboard?
    ensures WellFormedRun(trace + [l])
  {
  }
}
