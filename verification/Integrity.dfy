/** Referential integrity: live instances name catalogued descriptors and entity records name
    catalogued entities. Defining, instantiating and offloading each read first and write later, so
    two of them can pass each other. */
module Integrity {
  import opened Model
  import opened Hypervisor
  import opened Protocol
  import opened Runs
  import opened Replication
  import opened Identity

  ghost predicate LiveOf(w: World, n: Uuid, i: Uuid, f: Uuid) {
    n in w.nodes && i in w.nodes[n].local && w.nodes[n].local[i].fduUuid == f
  }

  /** Some node has an instance of the descriptor. */
  ghost predicate Live(w: World, f: Uuid) {
    exists n, i :: LiveOf(w, n, i, f)
  }

  ghost predicate InstancesNamed(w: World) {
    forall n, i | n in w.nodes && i in w.nodes[n].local :: w.nodes[n].local[i].fduUuid in w.catalog
  }

  ghost predicate EntitiesNamed(w: World) {
    forall r | r in w.entityRecords :: w.entityRecords[r].id in w.entities
  }

  // ---------------------------------------------------------------- one step

  /** Removing a descriptor breaks the reference of an instance exactly when one is live. */
  lemma OffloadKeepsNamesIff(w: World, f: Uuid)
    requires InstancesNamed(w) && Enabled(w, Offload(f))
    ensures InstancesNamed(Next(w, Offload(f))) <==> !Live(w, f)
  {
    var w' := Next(w, Offload(f));
    if n, i :| LiveOf(w, n, i, f) {
      assert w'.nodes[n].local[i].fduUuid !in w'.catalog;
    } else {
      forall n, i | n in w'.nodes && i in w'.nodes[n].local ensures w'.nodes[n].local[i].fduUuid in w'.catalog {
        assert !LiveOf(w, n, i, f);
      }
    }
  }

  /** Defining breaks it exactly when the descriptor has been removed since it was read. */
  lemma DefineKeepsNamesIff(w: World, n: Uuid, f: Uuid, u: Uuid)
    requires InstancesNamed(w) && Enabled(w, DefineCall(n, f, u))
    ensures InstancesNamed(Next(w, DefineCall(n, f, u))) <==> f in w.catalog
  {
    var w' := Next(w, DefineCall(n, f, u));
    assert w'.nodes[n].local[u].fduUuid == f;
  }

  /** A plugin call changes no other record, and never the descriptor a record names. */
  lemma ApplyNames(node: Node, catalog: map<Uuid, FDUDescriptor>, op: PluginOp, i: Uuid)
    requires op.Configure? && i in node.local && node.local[i].fduUuid in catalog ==>
               DrawsFit(catalog[node.local[i].fduUuid], op.draws)
    requires i in node.local ==> node.local[i].uuid == i
    ensures var m := Apply(node, catalog, op, i).0;
      && (forall j | j in m.local && j != i :: j in node.local && m.local[j] == node.local[j])
      && (i in m.local ==> i in node.local && m.local[i].fduUuid == node.local[i].fduUuid)
  {
    ApplyEffect(node, catalog, op, i);
  }

  /** No step but a define makes an instance live, and none changes what an instance names. */
  lemma LiveKept(w: World, l: Label, n: Uuid, i: Uuid, f: Uuid)
    requires Structure(w) && Enabled(w, l) && LiveOf(Next(w, l), n, i, f)
    ensures LiveOf(w, n, i, f) || l == DefineCall(n, f, i)
  {
    if l.PluginCall? && l.n == n {
      if l.i in w.nodes[n].local { OwnRecord(w, n, l.i); }
      ApplyNames(w.nodes[n], w.catalog, l.op, l.i);
    } else {
      PlainLiveKept(w, l, n, i, f);
    }
  }

  lemma PlainLiveKept(w: World, l: Label, n: Uuid, i: Uuid, f: Uuid)
    requires Enabled(w, l) && LiveOf(Next(w, l), n, i, f) && !(l.PluginCall? && l.n == n)
    ensures LiveOf(w, n, i, f) || l == DefineCall(n, f, i)
  {
  }

  lemma CatalogKept(w: World, l: Label, f: Uuid)
    requires Enabled(w, l) && f in w.catalog && l != Offload(f)
    ensures f in Next(w, l).catalog
  {
  }

  /** The steps that break the reference of an instance, exactly. */
  lemma StepKeepsNamesIff(w: World, l: Label)
    requires Structure(w) && InstancesNamed(w) && Enabled(w, l)
    ensures InstancesNamed(Next(w, l)) <==> !(l.Offload? && Live(w, l.fdu)) && !(l.DefineCall? && l.fdu !in w.catalog)
  {
    if l.Offload? {
      OffloadKeepsNamesIff(w, l.fdu);
    } else if l.DefineCall? {
      DefineKeepsNamesIff(w, l.n, l.fdu, l.drawn);
    } else {
      OtherStepsKeepNames(w, l);
    }
  }

  lemma OtherStepsKeepNames(w: World, l: Label)
    requires Structure(w) && InstancesNamed(w) && Enabled(w, l) && !l.Offload? && !l.DefineCall?
    ensures InstancesNamed(Next(w, l))
  {
    var w' := Next(w, l);
    forall n, i | n in w'.nodes && i in w'.nodes[n].local ensures w'.nodes[n].local[i].fduUuid in w'.catalog {
      var f := w'.nodes[n].local[i].fduUuid;
      LiveKept(w, l, n, i, f);
      CatalogKept(w, l, f);
    }
  }

  /** The steps that break the reference of an entity record, exactly. */
  lemma StepKeepsEntitiesIff(w: World, l: Label)
    requires EntitiesNamed(w) && Enabled(w, l)
    ensures EntitiesNamed(Next(w, l))
      <==> !(l.OffloadEntity? && Instantiated(w, l.e)) && !(l.Instantiate? && l.rec.id !in w.entities)
  {
    if l.OffloadEntity? {
      var w' := Next(w, l);
      if r :| r in w.entityRecords && w.entityRecords[r].id == l.e {
        assert w'.entityRecords[r].id !in w'.entities;
      }
    } else if l.Instantiate? {
      assert Next(w, l).entityRecords[l.rec.uuid].id == l.rec.id;
    } else {
      PlainStepsKeepEntities(w, l);
    }
  }

  lemma PlainStepsKeepEntities(w: World, l: Label)
    requires EntitiesNamed(w) && Enabled(w, l) && !l.OffloadEntity? && !l.Instantiate?
    ensures EntitiesNamed(Next(w, l))
  {
  }

  ghost predicate Instantiated(w: World, e: Uuid) {
    exists r :: r in w.entityRecords && w.entityRecords[r].id == e
  }

  // ---------------------------------------------------------------- what open calls can still do

  /** A define of the descriptor is open: it has read the descriptor and not yet called its plugin. */
  ghost predicate Defining(w: World, f: Uuid) {
    exists n :: n in w.nodes && ToDefine(n, f) in w.held
  }

  /** Every global record of the descriptor is of an instance whose undefine is open and still has to
      remove it. */
  ghost predicate CouldList(w: World, f: Uuid) {
    forall i | i in w.records && w.records[i].fduUuid == f :: i in w.inflight && w.inflight[i].Removing?
  }

  /** An offload of the descriptor is open that the open calls let through: it has listed no instance,
      or lists none once the open undefines have ended. */
  ghost predicate Removing(w: World, f: Uuid) {
    ToRemove(f) in w.held || (ToOffload(f) in w.held && CouldList(w, f))
  }

  /** An open define is at odds with the catalog or with an open offload, or an open offload with a
      live instance. */
  ghost predicate Raced(w: World, f: Uuid) {
    (Defining(w, f) && (f !in w.catalog || Removing(w, f))) || (Removing(w, f) && Live(w, f))
  }

  /** The steps by which calls that are already open go on and end: everything but a first read, a
      plugin call on an instance, and what needs no read. */
  predicate Finishes(l: Label) {
    match l
    case Fetch(read) => read.ToRemove? || read.ToRemoveEntity?
    case PluginCall(_, _, _) => false
    case Onboard(_) => false
    case OnboardEntity(_) => false
    case Publish(_) => false
    case _ => true
  }

  ghost predicate OnlyFinishes(ls: seq<Label>) {
    forall l | l in ls :: Finishes(l)
  }

  ghost predicate Unraced(w: World) {
    InstancesNamed(w) && forall f :: !Raced(w, f)
  }

  /** A finishing step adds no open define and no offload that could not already be let through. */
  lemma FinishOpens(w: World, l: Label, f: Uuid)
    requires Structure(w) && OneFdu(w) && Enabled(w, l) && Finishes(l)
    ensures Defining(Next(w, l), f) ==> Defining(w, f)
    ensures Removing(Next(w, l), f) ==> Removing(w, f)
  {
    var w' := Next(w, l);
    HeldBefore(w, l, f);
    TokensBefore(w, l, f);
    if CouldList(w', f) { CouldListBefore(w, l, f); }
  }

  /** A finishing step takes a global record away only where an undefine is open. */
  lemma CouldListBefore(w: World, l: Label, f: Uuid)
    requires Structure(w) && OneFdu(w) && Enabled(w, l) && Finishes(l) && CouldList(Next(w, l), f)
    ensures CouldList(w, f)
  {
    forall i | i in w.records && w.records[i].fduUuid == f ensures i in w.inflight && w.inflight[i].Removing? {
      if l != RemoveRecord(i) { FinishKeepsRecord(w, l, i); }
    }
  }

  lemma FinishKeepsRecord(w: World, l: Label, i: Uuid)
    requires Structure(w) && OneFdu(w) && Enabled(w, l) && Finishes(l) && i in w.records && l != RemoveRecord(i)
    ensures var w' := Next(w, l);
      && i in w'.records && w'.records[i].fduUuid == w.records[i].fduUuid
      && (i in w'.inflight && w'.inflight[i].Removing? ==> i in w.inflight && w.inflight[i].Removing?)
  {
    if l.Deliver? {
      DeliverKeepsFdu(w, l.n);
    } else if l.DefineCall? {
      UndrawnUnknown(w, l.drawn);
    } else {
      QuietFinishKeeps(w, l, i);
    }
  }

  lemma QuietFinishKeeps(w: World, l: Label, i: Uuid)
    requires Enabled(w, l) && Finishes(l) && !l.Deliver? && !l.DefineCall? && i in w.records && l != RemoveRecord(i)
    ensures i in Next(w, l).records && Next(w, l).records[i] == w.records[i]
    ensures i in Next(w, l).inflight ==> i in w.inflight && w.inflight[i] == Next(w, l).inflight[i]
  {
  }

  lemma FinishKeepsUnraced(w: World, l: Label)
    requires Structure(w) && OneFdu(w) && Unraced(w) && Enabled(w, l) && Finishes(l)
    ensures Unraced(Next(w, l))
  {
    var w' := Next(w, l);
    if l.DefineCall? { DefineWasOpen(w, l.n, l.fdu, l.drawn); assert !Raced(w, l.fdu); }
    if l.Offload? { assert Removing(w, l.fdu) && !Raced(w, l.fdu); }
    StepKeepsNamesIff(w, l);
    forall f ensures !Raced(w', f) {
      FinishOpens(w, l, f);
      assert !Raced(w, f);
      if Defining(w', f) { CatalogKept(w, l, f); }
      if Removing(w', f) && Live(w', f) {
        var n, i :| LiveOf(w', n, i, f);
        LiveKept(w, l, n, i, f);
      }
    }
  }

  lemma {:induction false} FinishesKeepNames(w: World, ls: seq<Label>)
    requires Structure(w) && OneFdu(w) && Unraced(w) && Legal(w, ls) && OnlyFinishes(ls)
    ensures InstancesNamed(Exec(w, ls))
    decreases |ls|
  {
    if ls != [] {
      assert ls[0] in ls && forall l | l in ls[1..] :: l in ls;
      FinishKeepsUnraced(w, ls[0]);
      StepKeepsStructure(w, ls[0]);
      StepKeepsOneFdu(w, ls[0]);
      FinishesKeepNames(Next(w, ls[0]), ls[1..]);
    }
  }

  /** The open undefines of the descriptor end, and then the open offload does. rest holds the
      instances whose records are still to be removed. */
  lemma {:induction false} FinishOffload(w: World, f: Uuid, rest: set<Uuid>) returns (ls: seq<Label>)
    requires InstancesNamed(w) && Removing(w, f) && Live(w, f)
    requires rest == set i | i in w.records && w.records[i].fduUuid == f
    ensures Legal(w, ls) && OnlyFinishes(ls) && !InstancesNamed(Exec(w, ls))
    decreases |rest|
  {
    if ToRemove(f) in w.held {
      ls := [Offload(f)];
      OneStep(w, Offload(f));
      OffloadKeepsNamesIff(w, f);
    } else if rest == {} {
      NothingListed(w, f);
      ls := ListThenOffload(w, f);
    } else {
      var i :| i in rest;
      UndefineEnds(w, f, i);
      var more := FinishOffload(Next(w, RemoveRecord(i)), f, rest - {i});
      ExecCons(w, RemoveRecord(i), more);
      ls := [RemoveRecord(i)] + more;
    }
  }

  lemma NothingListed(w: World, f: Uuid)
    requires ToOffload(f) in w.held && (set i | i in w.records && w.records[i].fduUuid == f) == {}
    ensures CanFetch(w, ToRemove(f))
  {
    var none := set i | i in w.records && w.records[i].fduUuid == f;
    assert forall i :: i in none <==> i in w.records && w.records[i].fduUuid == f;
  }

  /** The removal of one record leaves the offload to be let through, and the live instance live. */
  lemma UndefineEnds(w: World, f: Uuid, i: Uuid)
    requires InstancesNamed(w) && ToOffload(f) in w.held && CouldList(w, f) && Live(w, f)
    requires i in w.records && w.records[i].fduUuid == f
    ensures Enabled(w, RemoveRecord(i))
    ensures var w' := Next(w, RemoveRecord(i));
      && InstancesNamed(w') && Removing(w', f) && Live(w', f)
      && (set k | k in w'.records && w'.records[k].fduUuid == f)
         == (set k | k in w.records && w.records[k].fduUuid == f) - {i}
  {
    var n, j :| LiveOf(w, n, j, f);
    assert LiveOf(Next(w, RemoveRecord(i)), n, j, f);
  }

  lemma ListThenOffload(w: World, f: Uuid) returns (ls: seq<Label>)
    requires InstancesNamed(w) && Live(w, f) && CanFetch(w, ToRemove(f))
    ensures Legal(w, ls) && OnlyFinishes(ls) && !InstancesNamed(Exec(w, ls))
  {
    ls := [Fetch(ToRemove(f))] + [Offload(f)];
    ListedOffload(w, Next(w, Fetch(ToRemove(f))), f);
    ExecCons(w, Fetch(ToRemove(f)), [Offload(f)]);
  }

  lemma ListedOffload(w: World, w1: World, f: Uuid)
    requires InstancesNamed(w) && Live(w, f) && w1 == w.(held := w1.held) && ToRemove(f) in w1.held
    ensures Legal(w1, [Offload(f)]) && !InstancesNamed(Exec(w1, [Offload(f)]))
  {
    var n, i :| LiveOf(w, n, i, f);
    assert LiveOf(w1, n, i, f);
    OneStep(w1, Offload(f));
    OffloadKeepsNamesIff(w1, f);
  }

  /** The open define is carried out, and then the open offload is let through. */
  lemma FinishBoth(w: World, f: Uuid, u: Uuid) returns (ls: seq<Label>)
    requires Structure(w) && InstancesNamed(w) && u !in w.issued
    requires Defining(w, f) && (f !in w.catalog || Removing(w, f))
    ensures Legal(w, ls) && OnlyFinishes(ls) && !InstancesNamed(Exec(w, ls))
  {
    var n :| n in w.nodes && ToDefine(n, f) in w.held;
    var l := DefineCall(n, f, u);
    DefineKeepsNamesIff(w, n, f, u);
    if f !in w.catalog {
      ls := [l];
      OneStep(w, l);
    } else {
      var w1 := Next(w, l);
      DefineLetsThrough(w, n, f, u);
      var rest := FinishOffload(w1, f, set i | i in w1.records && w1.records[i].fduUuid == f);
      ExecCons(w, l, rest);
      ls := [l] + rest;
    }
  }

  /** An undelivered instance stops no offload. */
  lemma DefineLetsThrough(w: World, n: Uuid, f: Uuid, u: Uuid)
    requires Structure(w) && Enabled(w, DefineCall(n, f, u)) && Removing(w, f)
    ensures Live(Next(w, DefineCall(n, f, u)), f) && Removing(Next(w, DefineCall(n, f, u)), f)
  {
    var w1 := Next(w, DefineCall(n, f, u));
    assert LiveOf(w1, n, u, f);
    UndrawnUnknown(w, u);
  }

  /** From any reachable state, serialised or not, in which every reference holds, the calls already
      open can break one by going on and ending exactly when an open define is at odds with the catalog
      or with an open offload of its descriptor, or an open offload with a live instance. What an open
      offload has listed or will list counts after all open undefines have ended. */
  lemma OpenCallsBreakNamesIff(w: World, u: Uuid)
    requires Structure(w) && OneFdu(w) && InstancesNamed(w) && u !in w.issued
    ensures (exists ls :: Legal(w, ls) && OnlyFinishes(ls) && !InstancesNamed(Exec(w, ls))) <==> exists f :: Raced(w, f)
  {
    if f :| Raced(w, f) {
      var ls: seq<Label>;
      if Defining(w, f) && (f !in w.catalog || Removing(w, f)) {
        ls := FinishBoth(w, f, u);
      } else {
        ls := FinishOffload(w, f, set i | i in w.records && w.records[i].fduUuid == f);
      }
    } else {
      forall ls | Legal(w, ls) && OnlyFinishes(ls) ensures InstancesNamed(Exec(w, ls)) {
        FinishesKeepNames(w, ls);
      }
    }
  }

  /** The same for entities, whose records are in the global store from the start. */
  ghost predicate RemovingEntity(w: World, e: Uuid) {
    ToRemoveEntity(e) in w.held || (ToOffloadEntity(e) in w.held && CanFetch(w, ToRemoveEntity(e)))
  }

  ghost predicate RacedEntity(w: World, e: Uuid) {
    (ToInstantiate(e) in w.held && (e !in w.entities || RemovingEntity(w, e)))
      || (RemovingEntity(w, e) && Instantiated(w, e))
  }

  lemma FinishKeepsEntities(w: World, l: Label)
    requires EntitiesNamed(w) && (forall e :: !RacedEntity(w, e)) && Enabled(w, l) && Finishes(l)
    ensures EntitiesNamed(Next(w, l)) && forall e :: !RacedEntity(Next(w, l), e)
  {
    StepKeepsEntitiesIff(w, l);
    if l.OffloadEntity? { assert !RacedEntity(w, l.e); }
    if l.Instantiate? { assert !RacedEntity(w, l.rec.id); }
    forall e ensures !RacedEntity(Next(w, l), e) {
      assert !RacedEntity(w, e);
      EntityStaysUnraced(w, l, e);
    }
  }

  lemma EntityStaysUnraced(w: World, l: Label, e: Uuid)
    requires !RacedEntity(w, e) && Enabled(w, l) && Finishes(l)
    ensures !RacedEntity(Next(w, l), e)
  {
    var w' := Next(w, l);
    EntityTokensBefore(w, l, e);
    if RemovingEntity(w', e) { RemovingEntityBefore(w, l, e); }
    if e in w.entities && l != OffloadEntity(e) { EntityKept(w, l, e); }
    if Instantiated(w', e) {
      var r :| r in w'.entityRecords && w'.entityRecords[r].id == e;
      RecordBefore(w, l, e, r);
    }
  }

  lemma RemovingEntityBefore(w: World, l: Label, e: Uuid)
    requires Enabled(w, l) && Finishes(l) && RemovingEntity(Next(w, l), e)
    ensures RemovingEntity(w, e)
  {
    EntityTokensBefore(w, l, e);
    if ToRemoveEntity(e) !in Next(w, l).held { ListableBefore(w, l, e); }
    RemovingFrom(w, Next(w, l), l, e);
  }

  lemma RemovingFrom(w: World, w': World, l: Label, e: Uuid)
    requires Enabled(w, l) && Finishes(l) && RemovingEntity(w', e)
    requires ToOffloadEntity(e) in w'.held ==> ToOffloadEntity(e) in w.held || l == Fetch(ToOffloadEntity(e))
    requires ToRemoveEntity(e) in w'.held ==> ToRemoveEntity(e) in w.held || l == Fetch(ToRemoveEntity(e))
    requires ToRemoveEntity(e) !in w'.held ==> forall r | r in w.entityRecords :: w.entityRecords[r].id != e
    ensures RemovingEntity(w, e)
  {
  }

  lemma ListableBefore(w: World, l: Label, e: Uuid)
    requires Enabled(w, l) && Finishes(l) && CanFetch(Next(w, l), ToRemoveEntity(e))
    ensures forall r | r in w.entityRecords :: w.entityRecords[r].id != e
  {
    RecordsStay(w, l);
  }

  /** Finishing steps drop no entity record. */
  lemma RecordsStay(w: World, l: Label)
    requires Enabled(w, l) && Finishes(l)
    ensures forall r | r in w.entityRecords ::
        r in Next(w, l).entityRecords && Next(w, l).entityRecords[r] == w.entityRecords[r]
  {
    if !l.Instantiate? { EntityRecordsSame(w, l); }
  }

  lemma EntityRecordsSame(w: World, l: Label)
    requires Enabled(w, l) && Finishes(l) && !l.Instantiate?
    ensures Next(w, l).entityRecords == w.entityRecords
  {
    if l.Fetch? || l.Abandon? {
      ReadLeavesRecords(w, l);
    } else if l.Offload? || l.OffloadEntity? {
      OffloadLeavesRecords(w, l);
    } else {
      CallLeavesRecords(w, l);
    }
  }

  lemma ReadLeavesRecords(w: World, l: Label)
    requires Enabled(w, l) && (l.Fetch? || l.Abandon?)
    ensures Next(w, l).entityRecords == w.entityRecords
  {
  }

  lemma OffloadLeavesRecords(w: World, l: Label)
    requires Enabled(w, l) && (l.Offload? || l.OffloadEntity?)
    ensures Next(w, l).entityRecords == w.entityRecords
  {
  }

  lemma CallLeavesRecords(w: World, l: Label)
    requires Enabled(w, l) && (l.Deliver? || l.DefineCall? || l.Return? || l.RemoveRecord?)
    ensures Next(w, l).entityRecords == w.entityRecords
  {
  }

  lemma {:induction false} FinishesKeepEntities(w: World, ls: seq<Label>)
    requires EntitiesNamed(w) && (forall e :: !RacedEntity(w, e)) && Legal(w, ls) && OnlyFinishes(ls)
    ensures EntitiesNamed(Exec(w, ls))
    decreases |ls|
  {
    if ls != [] {
      assert ls[0] in ls && forall l | l in ls[1..] :: l in ls;
      FinishKeepsEntities(w, ls[0]);
      FinishesKeepEntities(Next(w, ls[0]), ls[1..]);
    }
  }

  lemma FinishEntityOffload(w: World, e: Uuid) returns (ls: seq<Label>)
    requires EntitiesNamed(w) && RemovingEntity(w, e) && Instantiated(w, e)
    ensures Legal(w, ls) && OnlyFinishes(ls) && !EntitiesNamed(Exec(w, ls))
  {
    var l := OffloadEntity(e);
    StepKeepsEntitiesIff(w, l);
    ls := [l];
    OneStep(w, l);
  }

  lemma FinishEntityBoth(w: World, e: Uuid, u: Uuid) returns (ls: seq<Label>)
    requires EntitiesNamed(w) && ToInstantiate(e) in w.held && (e !in w.entities || RemovingEntity(w, e))
    requires u !in w.issued && u !in w.entityRecords
    ensures Legal(w, ls) && OnlyFinishes(ls) && !EntitiesNamed(Exec(w, ls))
  {
    if e !in w.entities {
      var l := Instantiate(EntityRecord(u, e, ONBOARDING, []));
      StepKeepsEntitiesIff(w, l);
      ls := [l];
      OneStep(w, l);
    } else {
      if ToRemoveEntity(e) in w.held {
        ls := InstantiateThenRemove(w, e, u);
      } else {
        var first := Fetch(ToRemoveEntity(e));
        var rest := InstantiateThenRemove(Next(w, first), e, u);
        ExecCons(w, first, rest);
        ls := [first] + rest;
      }
    }
  }

  lemma InstantiateThenRemove(w: World, e: Uuid, u: Uuid) returns (ls: seq<Label>)
    requires EntitiesNamed(w) && ToInstantiate(e) in w.held && ToRemoveEntity(e) in w.held && e in w.entities
    requires u !in w.issued && u !in w.entityRecords
    ensures Legal(w, ls) && OnlyFinishes(ls) && !EntitiesNamed(Exec(w, ls))
  {
    var l := Instantiate(EntityRecord(u, e, ONBOARDING, []));
    StepKeepsEntitiesIff(w, l);
    var w1 := Next(w, l);
    assert u in w1.entityRecords && w1.entityRecords[u].id == e;
    var rest := FinishEntityOffload(w1, e);
    ExecCons(w, l, rest);
    ls := [l] + rest;
  }

  /** From a state in which every entity record names an entity, the open calls can break that
      exactly when an open instantiation and an open offload of one entity are at odds, or an offload
      and a record that its listing missed. */
  lemma OpenCallsBreakEntitiesIff(w: World, u: Uuid)
    requires EntitiesNamed(w) && u !in w.issued && u !in w.entityRecords
    ensures (exists ls :: Legal(w, ls) && OnlyFinishes(ls) && !EntitiesNamed(Exec(w, ls)))
       <==> exists e :: RacedEntity(w, e)
  {
    if e :| RacedEntity(w, e) {
      var ls: seq<Label>;
      if ToInstantiate(e) in w.held && (e !in w.entities || RemovingEntity(w, e)) {
        ls := FinishEntityBoth(w, e, u);
      } else {
        ls := FinishEntityOffload(w, e);
      }
    } else {
      forall ls | Legal(w, ls) && OnlyFinishes(ls) ensures EntitiesNamed(Exec(w, ls)) {
        FinishesKeepEntities(w, ls);
      }
    }
  }

  // ---------------------------------------------------------------- calls that do not overlap

  /** A define of the descriptor has called its plugin, and the record is not in the global store. */
  ghost predicate DefinePending(w: World, f: Uuid) {
    exists i :: i in w.inflight && w.inflight[i].Await? && i !in w.records && LiveOf(w, w.inflight[i].home, i, f)
  }

  ghost predicate Offloading(w: World, f: Uuid) {
    ToOffload(f) in w.held || ToRemove(f) in w.held
  }

  /** No define and no offload of one descriptor are open together: neither begins during the
      other. A define is open until its record has reached the global store. */
  ghost predicate NoOverlap(w: World, l: Label) {
    match l
    case Fetch(ToDefine(_, f)) => !Offloading(w, f)
    case Fetch(ToOffload(f)) => !Defining(w, f) && !DefinePending(w, f)
    case _ => true
  }

  ghost predicate CalmRun(w: World, ls: seq<Label>)
    requires Legal(w, ls)
    decreases |ls|
  {
    ls == [] || (NoOverlap(w, ls[0]) && CalmRun(Next(w, ls[0]), ls[1..]))
  }

  /** While an offload is open no define is, and once it has listed nothing there is no instance. */
  ghost predicate CalmAt(w: World, f: Uuid) {
    && (Offloading(w, f) ==> !Defining(w, f) && !DefinePending(w, f))
    && (ToRemove(f) in w.held ==> !Live(w, f))
    && (Defining(w, f) ==> f in w.catalog)
  }

  ghost predicate CalmWorld(w: World) {
    InstancesNamed(w) && forall f :: CalmAt(w, f)
  }

  /** A live instance that no pending define accounts for shows in the global store. */
  lemma LiveIsGlobal(w: World, n: Uuid, i: Uuid, f: Uuid)
    requires Coherent(w) && LiveOf(w, n, i, f) && !DefinePending(w, f)
    ensures i in w.records && w.records[i].fduUuid == f
  {
    assert InstanceOk(w, i);
    assert !AbsentAt(w.nodes[n], i);
    if i in w.inflight && w.inflight[i].Await? { assert w.inflight[i].home == n; }
  }

  /** Only defining makes a define pending. */
  lemma PendingKept(w: World, l: Label, f: Uuid)
    requires Structure(w) && Enabled(w, l) && Serial(w, l) && DefinePending(Next(w, l), f)
    ensures DefinePending(w, f) || (l.DefineCall? && l.fdu == f)
  {
    var w' := Next(w, l);
    var i :| i in w'.inflight && w'.inflight[i].Await? && i !in w'.records && LiveOf(w', w'.inflight[i].home, i, f);
    LiveKept(w, l, w'.inflight[i].home, i, f);
    if !(l.DefineCall? && l.drawn == i) { StillPending(w, l, i); }
  }

  lemma StillPending(w: World, l: Label, i: Uuid)
    requires Enabled(w, l) && Serial(w, l) && !(l.DefineCall? && l.drawn == i)
    requires i in Next(w, l).inflight && i !in Next(w, l).records
    ensures i in w.inflight && w.inflight[i] == Next(w, l).inflight[i] && i !in w.records
  {
  }

  lemma HeldBefore(w: World, l: Label, f: Uuid)
    requires Enabled(w, l)
    ensures Defining(Next(w, l), f) ==> Defining(w, f) || (l.Fetch? && l.read.ToDefine? && l.read.fdu == f)
    ensures Offloading(Next(w, l), f) ==> Offloading(w, f) || l == Fetch(ToOffload(f))
    ensures ToRemove(f) in Next(w, l).held ==> ToRemove(f) in w.held || l == Fetch(ToRemove(f))
  {
    TokensBefore(w, l, f);
    var w' := Next(w, l);
    StepIssues(w, l);
    if Defining(w', f) {
      var n :| n in w'.nodes && ToDefine(n, f) in w'.held;
      assert n in w.nodes;
      if ToDefine(n, f) in w.held { assert Defining(w, f); }
    }
  }

  /** A read is held because it was held before or has just been made. */
  lemma ReadBefore(w: World, l: Label, read: Read)
    requires Enabled(w, l) && read in Next(w, l).held
    ensures read in w.held || l == Fetch(read)
  {
    if l.Fetch? {
      assert Next(w, l).held == Opened(w.held, l.read);
    } else {
      HeldShrinks(w, l);
    }
  }

  lemma HeldShrinks(w: World, l: Label)
    requires Enabled(w, l) && !l.Fetch?
    ensures Next(w, l).held <= w.held
  {
  }

  lemma TokensBefore(w: World, l: Label, f: Uuid)
    requires Enabled(w, l)
    ensures forall n :: ToDefine(n, f) in Next(w, l).held ==> ToDefine(n, f) in w.held || l == Fetch(ToDefine(n, f))
    ensures ToOffload(f) in Next(w, l).held ==> ToOffload(f) in w.held || l == Fetch(ToOffload(f))
    ensures ToRemove(f) in Next(w, l).held ==> ToRemove(f) in w.held || l == Fetch(ToRemove(f))
  {
    forall read | read in Next(w, l).held ensures read in w.held || l == Fetch(read) {
      ReadBefore(w, l, read);
    }
  }

  lemma StepKeepsCalm(w: World, l: Label)
    requires Structure(w) && Coherent(w) && CalmWorld(w) && Enabled(w, l) && Serial(w, l) && NoOverlap(w, l)
    ensures CalmWorld(Next(w, l))
  {
    if l.DefineCall? { DefineWasOpen(w, l.n, l.fdu, l.drawn); assert CalmAt(w, l.fdu); }
    if l.Offload? { assert CalmAt(w, l.fdu); }
    StepKeepsNamesIff(w, l);
    forall f ensures CalmAt(Next(w, l), f) {
      CalmStays(w, l, f);
    }
  }

  lemma DefineWasOpen(w: World, n: Uuid, f: Uuid, u: Uuid)
    requires Enabled(w, DefineCall(n, f, u))
    ensures Defining(w, f)
  {
  }

  lemma CalmStays(w: World, l: Label, f: Uuid)
    requires Structure(w) && Coherent(w) && CalmAt(w, f) && Enabled(w, l) && Serial(w, l) && NoOverlap(w, l)
    ensures CalmAt(Next(w, l), f)
  {
    var w' := Next(w, l);
    HeldBefore(w, l, f);
    TokensBefore(w, l, f);
    if l.DefineCall? { DefineWasOpen(w, l.n, l.fdu, l.drawn); }
    if Offloading(w', f) && DefinePending(w', f) { PendingKept(w, l, f); }
    if ToRemove(f) in w'.held { NothingLive(w, l, f); }
    if Defining(w', f) { DescriptorStays(w, l, f); }
  }

  /** Once an offload has listed nothing, nothing is live. */
  lemma NothingLive(w: World, l: Label, f: Uuid)
    requires Structure(w) && Coherent(w) && CalmAt(w, f) && Enabled(w, l)
    requires ToRemove(f) in w.held || l == Fetch(ToRemove(f))
    ensures !Live(Next(w, l), f)
  {
    if l.DefineCall? { DefineWasOpen(w, l.n, l.fdu, l.drawn); }
    forall n, i ensures !LiveOf(Next(w, l), n, i, f) {
      if LiveOf(Next(w, l), n, i, f) {
        LiveKept(w, l, n, i, f);
        if LiveOf(w, n, i, f) { LiveIsGlobal(w, n, i, f); }
      }
    }
  }

  lemma DescriptorStays(w: World, l: Label, f: Uuid)
    requires CalmAt(w, f) && Enabled(w, l) && NoOverlap(w, l)
    requires Defining(w, f) || (l.Fetch? && l.read.ToDefine? && l.read.fdu == f)
    ensures f in Next(w, l).catalog
  {
    if l.Fetch? && l.read.ToDefine? && l.read.fdu == f {
    } else {
      CatalogKept(w, l, f);
    }
  }

  lemma {:induction false} RunKeepsCalm(w: World, ls: seq<Label>)
    requires Structure(w) && Coherent(w) && CalmWorld(w) && Legal(w, ls) && SerialRun(w, ls) && CalmRun(w, ls)
    ensures InstancesNamed(Exec(w, ls))
    decreases |ls|
  {
    if ls != [] {
      StepKeepsCalm(w, ls[0]);
      StepKeepsStructure(w, ls[0]);
      StepKeepsCoherent(w, ls[0]);
      RunKeepsCalm(Next(w, ls[0]), ls[1..]);
    }
  }

  ghost predicate OffloadingEntity(w: World, e: Uuid) {
    ToOffloadEntity(e) in w.held || ToRemoveEntity(e) in w.held
  }

  /** No instantiation and no offload of one entity begin during the other. */
  ghost predicate NoEntityOverlap(w: World, l: Label) {
    match l
    case Fetch(ToInstantiate(e)) => !OffloadingEntity(w, e)
    case Fetch(ToOffloadEntity(e)) => ToInstantiate(e) !in w.held
    case _ => true
  }

  ghost predicate EntityCalmRun(w: World, ls: seq<Label>)
    requires Legal(w, ls)
    decreases |ls|
  {
    ls == [] || (NoEntityOverlap(w, ls[0]) && EntityCalmRun(Next(w, ls[0]), ls[1..]))
  }

  ghost predicate EntityCalmAt(w: World, e: Uuid) {
    && (OffloadingEntity(w, e) ==> ToInstantiate(e) !in w.held)
    && (ToRemoveEntity(e) in w.held ==> !Instantiated(w, e))
    && (ToInstantiate(e) in w.held ==> e in w.entities)
  }

  lemma EntityCalmStays(w: World, l: Label, e: Uuid)
    requires EntityCalmAt(w, e) && Enabled(w, l) && NoEntityOverlap(w, l)
    ensures EntityCalmAt(Next(w, l), e)
  {
    EntityTokensBefore(w, l, e);
    if e in w.entities && l != OffloadEntity(e) { EntityKept(w, l, e); }
    if Instantiated(Next(w, l), e) {
      var r :| r in Next(w, l).entityRecords && Next(w, l).entityRecords[r].id == e;
      RecordBefore(w, l, e, r);
    }
  }

  lemma EntityTokensBefore(w: World, l: Label, e: Uuid)
    requires Enabled(w, l)
    ensures ToInstantiate(e) in Next(w, l).held ==> ToInstantiate(e) in w.held || l == Fetch(ToInstantiate(e))
    ensures ToOffloadEntity(e) in Next(w, l).held ==> ToOffloadEntity(e) in w.held || l == Fetch(ToOffloadEntity(e))
    ensures ToRemoveEntity(e) in Next(w, l).held ==> ToRemoveEntity(e) in w.held || l == Fetch(ToRemoveEntity(e))
  {
    forall read | read in Next(w, l).held ensures read in w.held || l == Fetch(read) {
      ReadBefore(w, l, read);
    }
  }

  lemma EntityKept(w: World, l: Label, e: Uuid)
    requires Enabled(w, l) && e in w.entities && l != OffloadEntity(e)
    ensures e in Next(w, l).entities
  {
  }

  lemma RecordBefore(w: World, l: Label, e: Uuid, r: Uuid)
    requires Enabled(w, l) && r in Next(w, l).entityRecords && Next(w, l).entityRecords[r].id == e
    ensures Instantiated(w, e) || (l.Instantiate? && l.rec.id == e)
  {
    if r in w.entityRecords && w.entityRecords[r].id == e { assert Instantiated(w, e); }
  }

  lemma {:induction false} RunKeepsEntities(w: World, ls: seq<Label>)
    requires EntitiesNamed(w) && (forall e :: EntityCalmAt(w, e)) && Legal(w, ls) && EntityCalmRun(w, ls)
    ensures EntitiesNamed(Exec(w, ls))
    decreases |ls|
  {
    if ls != [] {
      var w1 := Next(w, ls[0]);
      if ls[0].OffloadEntity? { assert EntityCalmAt(w, ls[0].e); }
      if ls[0].Instantiate? { assert EntityCalmAt(w, ls[0].rec.id); }
      StepKeepsEntitiesIff(w, ls[0]);
      forall e ensures EntityCalmAt(w1, e) {
        EntityCalmStays(w, ls[0], e);
      }
      RunKeepsEntities(w1, ls[1..]);
    }
  }

  /** Referential integrity at operation boundaries: in every reachable state of a serialised run in
      which no define and no offload of one descriptor overlap, every live instance on any node names
      a catalogued descriptor; and in every run in which no instantiation and no offload of one entity
      overlap, every entity record names a catalogued entity. */
  lemma ReachableIntegrity(w: World, ls: seq<Label>)
    requires Init(w) && Legal(w, ls)
    ensures EntityCalmRun(w, ls) ==> EntitiesNamed(Exec(w, ls))
    ensures SerialRun(w, ls) && CalmRun(w, ls) ==> InstancesNamed(Exec(w, ls))
  {
    if EntityCalmRun(w, ls) { RunKeepsEntities(w, ls); }
    if SerialRun(w, ls) && CalmRun(w, ls) {
      InitStructure(w);
      ReachableCoherent(w, []);
      InitCalm(w);
      RunKeepsCalm(w, ls);
    }
  }

  lemma InitCalm(w: World)
    requires Init(w)
    ensures CalmWorld(w)
  {
    assert InstancesNamed(w);
    forall f ensures CalmAt(w, f) {
    }
  }
}
