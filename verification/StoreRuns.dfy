/** The key-value store refines typed maps: for one operation, and over whole runs of the system. */
module StoreRuns {
  import opened Model
  import opened Hypervisor
  import opened Protocol
  import opened Runs
  import opened Replication
  import opened Identity
  import opened Paths
  import opened Store

  /** What a typed lookup asks for. */
  datatype Slot = RecordSlot(i: Uuid) | FduSlot(f: Uuid) | EntitySlot(e: Uuid) | EntityRecordSlot(r: Uuid)

  function SlotOf(place: Place, v: Value): Slot
    requires Storable(place, v)
  {
    match v
    case RecordV(rec) => RecordSlot(rec.uuid)
    case FduV(fdu) => FduSlot(fdu.uuid.value)
    case EntityV(entity) => EntitySlot(entity.uuid.value)
    case EntityRecordV(erec) => EntityRecordSlot(erec.uuid)
  }

  /** The path or selector that a lookup uses. */
  function SelectorOf(place: Place, slot: Slot): Address
    requires slot.RecordSlot? || place.GlobalPlace?
  {
    match slot
    case RecordSlot(i) => InstanceAddress(place, None, Some(i))
    case FduSlot(f) => GlobalA(place.sys, place.tenant, FduAt(Some(f)))
    case EntitySlot(e) => GlobalA(place.sys, place.tenant, EntityAt(Some(e)))
    case EntityRecordSlot(r) => GlobalA(place.sys, place.tenant, EntityInstanceAt(None, Some(r)))
  }

  ghost predicate InSlot(place: Place, slot: Slot, v: Value) {
    Storable(place, v) && SlotOf(place, v) == slot
  }

  ghost predicate Typed(place: Place, typed: map<Slot, Value>) {
    forall slot | slot in typed :: InSlot(place, slot, typed[slot])
  }

  ghost predicate TypedHas(place: Place, typed: map<Slot, Value>, v: Value) {
    Storable(place, v) && SlotOf(place, v) in typed && typed[SlotOf(place, v)] == v
  }

  /** The string store holds exactly the values of the typed map, each at its own path. */
  ghost predicate Refines(place: Place, kv: map<string, Value>, typed: map<Slot, Value>) {
    && WellKeyed(place, kv) && Typed(place, typed)
    && forall v :: Stored(place, kv, v) <==> TypedHas(place, typed, v)
  }

  /** A lookup's selector covers exactly the values of its slot. */
  lemma SelectorCovers(place: Place, slot: Slot, v: Value)
    requires slot.RecordSlot? || place.GlobalPlace?
    ensures CoveredBy(place, SelectorOf(place, slot), v) <==> InSlot(place, slot, v)
  {
  }

  /** Values with one path are in one slot. */
  lemma SamePathSameSlot(place: Place, a: Value, b: Value)
    requires Storable(place, a) && Storable(place, b) && PathOf(place, a) == PathOf(place, b)
    ensures SlotOf(place, a) == SlotOf(place, b) && AddressOf(place, a) == AddressOf(place, b)
  {
    RenderInjective(AddressOf(place, a), AddressOf(place, b));
  }

  /** Values in one slot share their path unless they are records of one instance under two FDUs,
      or of one entity instance under two entities. */
  ghost predicate SamePlaceIn(place: Place, typed: map<Slot, Value>, v: Value)
    requires Storable(place, v) && Typed(place, typed)
  {
    SlotOf(place, v) in typed ==>
      assert InSlot(place, SlotOf(place, v), typed[SlotOf(place, v)]);
      AddressOf(place, typed[SlotOf(place, v)]) == AddressOf(place, v)
  }

  /** A put keeps the refinement exactly when the slot was empty or its value has the same path; if
      an instance's FDU UUID changed, the old record would stay beside the new one. */
  lemma PutRefinesIff(place: Place, kv: map<string, Value>, typed: map<Slot, Value>, v: Value)
    requires Refines(place, kv, typed) && Storable(place, v)
    ensures Refines(place, kv[PathOf(place, v) := v], typed[SlotOf(place, v) := v]) <==> SamePlaceIn(place, typed, v)
  {
    var kv', typed' := kv[PathOf(place, v) := v], typed[SlotOf(place, v) := v];
    if SamePlaceIn(place, typed, v) {
      forall x ensures Stored(place, kv', x) <==> TypedHas(place, typed', x) {
        PutOther(place, kv, typed, v, x);
      }
    } else {
      var old_ := typed[SlotOf(place, v)];
      assert InSlot(place, SlotOf(place, v), old_) && TypedHas(place, typed, old_) && Stored(place, kv, old_);
      if PathOf(place, old_) == PathOf(place, v) { SamePathSameSlot(place, old_, v); }
      assert Stored(place, kv', old_) && !TypedHas(place, typed', old_);
    }
  }

  lemma PutOther(place: Place, kv: map<string, Value>, typed: map<Slot, Value>, v: Value, x: Value)
    requires Refines(place, kv, typed) && Storable(place, v) && SamePlaceIn(place, typed, v)
    ensures Stored(place, kv[PathOf(place, v) := v], x) <==> TypedHas(place, typed[SlotOf(place, v) := v], x)
  {
    assert Stored(place, kv, x) <==> TypedHas(place, typed, x);
    if Storable(place, x) {
      if PathOf(place, x) == PathOf(place, v) { SamePathSameSlot(place, x, v); }
      if SlotOf(place, x) == SlotOf(place, v) && TypedHas(place, typed, x) {
        assert AddressOf(place, x) == AddressOf(place, v);
      }
    }
  }

  /** Deleting the path of a slot's value removes exactly that slot. */
  lemma DeleteRefines(place: Place, kv: map<string, Value>, typed: map<Slot, Value>, slot: Slot)
    requires Refines(place, kv, typed) && slot in typed && InSlot(place, slot, typed[slot])
    ensures Refines(place, kv - {PathOf(place, typed[slot])}, typed - {slot})
  {
    var v := typed[slot];
    var kv', typed' := kv - {PathOf(place, v)}, typed - {slot};
    forall x ensures Stored(place, kv', x) <==> TypedHas(place, typed', x) {
      assert Stored(place, kv, x) <==> TypedHas(place, typed, x);
      assert TypedHas(place, typed, v) && Stored(place, kv, v);
      if Storable(place, x) && PathOf(place, x) == PathOf(place, v) { SamePathSameSlot(place, x, v); }
    }
  }

  /** Under the refinement a lookup reads the typed map: the values its selector covers are the
      one in its slot, so TooMuchError cannot arise. */
  lemma LookupRefines(place: Place, kv: map<string, Value>, typed: map<Slot, Value>, slot: Slot, v: Value)
    requires Refines(place, kv, typed) && (slot.RecordSlot? || place.GlobalPlace?)
    ensures Stored(place, kv, v) && CoveredBy(place, SelectorOf(place, slot), v) <==> slot in typed && typed[slot] == v
  {
    SelectorCovers(place, slot, v);
    assert Stored(place, kv, v) <==> TypedHas(place, typed, v);
    if slot in typed { assert InSlot(place, slot, typed[slot]); }
  }

  lemma NeverTooMuch(place: Place, kv: map<string, Value>, typed: map<Slot, Value>, i: Uuid)
    requires Refines(place, kv, typed)
    ensures !TwoFdus(place, kv, i) && !TwoEntities(place, kv, i)
  {
    forall a: FDURecord, b: FDURecord
      | a.uuid == b.uuid == i && Stored(place, kv, RecordV(a)) && Stored(place, kv, RecordV(b))
      ensures a.fduUuid == b.fduUuid
    {
      assert TypedHas(place, typed, RecordV(a)) && TypedHas(place, typed, RecordV(b));
    }
    forall a: EntityRecord, b: EntityRecord
      | a.uuid == b.uuid == i && Stored(place, kv, EntityRecordV(a)) && Stored(place, kv, EntityRecordV(b))
      ensures a.id == b.id
    {
      assert TypedHas(place, typed, EntityRecordV(a)) && TypedHas(place, typed, EntityRecordV(b));
    }
  }

  // ---------------------------------------------------------------- whole runs

  /** The value is in the typed map of its family. */
  ghost predicate InMaps(m: TypedMaps, v: Value) {
    match v
    case RecordV(rec) => rec.uuid in m.records && m.records[rec.uuid] == rec
    case FduV(fdu) => fdu.uuid.Some? && fdu.uuid.value in m.catalog && m.catalog[fdu.uuid.value] == fdu
    case EntityV(entity) =>
      entity.uuid.Some? && entity.uuid.value in m.entities && m.entities[entity.uuid.value] == entity
    case EntityRecordV(erec) => erec.uuid in m.entityRecords && m.entityRecords[erec.uuid] == erec
  }

  /** The system, or one node, has this value. */
  ghost predicate WorldHas(place: Place, w: World, v: Value) {
    match place
    case GlobalPlace(_, _) => InMaps(GlobalMaps(w), v)
    case LocalPlace(n) => n in w.nodes && InMaps(LocalMaps(w.nodes[n]), v)
  }

  /** What one string store stands for. */
  datatype TypedMaps = TypedMaps(
    records: map<Uuid, FDURecord>,
    catalog: map<Uuid, FDUDescriptor>,
    entities: map<Uuid, EntityDescriptor>,
    entityRecords: map<Uuid, EntityRecord>)

  function GlobalMaps(w: World): TypedMaps {
    TypedMaps(w.records, w.catalog, w.entities, w.entityRecords)
  }

  function LocalMaps(node: Node): TypedMaps {
    TypedMaps(node.local, map[], map[], map[])
  }

  ghost predicate Holds(typed: map<Slot, Value>, m: TypedMaps) {
    && (forall i :: RecordSlot(i) in typed <==> i in m.records)
    && (forall f :: FduSlot(f) in typed <==> f in m.catalog)
    && (forall e :: EntitySlot(e) in typed <==> e in m.entities)
    && (forall r :: EntityRecordSlot(r) in typed <==> r in m.entityRecords)
    && (forall i | i in m.records :: typed[RecordSlot(i)] == RecordV(m.records[i]))
    && (forall f | f in m.catalog :: typed[FduSlot(f)] == FduV(m.catalog[f]))
    && (forall e | e in m.entities :: typed[EntitySlot(e)] == EntityV(m.entities[e]))
    && (forall r | r in m.entityRecords :: typed[EntityRecordSlot(r)] == EntityRecordV(m.entityRecords[r]))
  }

  /** The typed maps of the system, or the instances of a node, as one map. */
  ghost predicate Represents(place: Place, typed: map<Slot, Value>, w: World) {
    match place
    case GlobalPlace(_, _) => Holds(typed, GlobalMaps(w))
    case LocalPlace(n) => n in w.nodes && Holds(typed, LocalMaps(w.nodes[n]))
  }

  datatype StoreOp = PutOp(v: Value) | RemoveOp(slot: Slot) | NoOp

  /** What a step of the system does to the global store. */
  function GlobalOp(w: World, l: Label): StoreOp
    requires Enabled(w, l)
  {
    match l
    case Deliver(n) => PutOp(RecordV(w.nodes[n].fifo[0]))
    case RemoveRecord(i) => RemoveOp(RecordSlot(i))
    case Onboard(desc) => PutOp(FduV(desc))
    case Offload(fdu) => RemoveOp(FduSlot(fdu))
    case OnboardEntity(entity) => PutOp(EntityV(entity))
    case OffloadEntity(e) => RemoveOp(EntitySlot(e))
    case Instantiate(rec) => PutOp(EntityRecordV(rec))
    case Publish(rec) => PutOp(EntityRecordV(rec))
    case _ => NoOp
  }

  /** What it does to the local store of node n: a put of the record that the plugin wrote, or the
      removal of an undefined instance. */
  ghost function LocalOp(n: Uuid, w: World, l: Label): StoreOp
    requires Enabled(w, l)
  {
    if Wrote(w, l, n) != [] then PutOp(RecordV(Wrote(w, l, n)[0]))
    else if l.PluginCall? && l.n == n && l.op.Undefine? && Apply(w.nodes[n], w.catalog, l.op, l.i).1.Ok? then
        RemoveOp(RecordSlot(l.i))
    else NoOp
  }

  ghost function StoreOpOf(place: Place, w: World, l: Label): (op: StoreOp)
    requires Enabled(w, l)
    ensures op.PutOp? ==> Storable(place, op.v)
    ensures op.RemoveOp? ==> op.slot.RecordSlot? || place.GlobalPlace?
  {
    match place
    case GlobalPlace(_, _) => GlobalOp(w, l)
    case LocalPlace(n) => LocalOp(n, w, l)
  }

  /** The string store after an operation: a remove deletes the path of the value its lookup reads. */
  ghost function StoreStep(place: Place, kv: map<string, Value>, op: StoreOp): map<string, Value>
    requires op.PutOp? ==> Storable(place, op.v)
    requires op.RemoveOp? ==> op.slot.RecordSlot? || place.GlobalPlace?
  {
    match op
    case PutOp(v) => kv[PathOf(place, v) := v]
    case RemoveOp(slot) =>
      if exists v :: Stored(place, kv, v) && CoveredBy(place, SelectorOf(place, slot), v) then
        var v :| Stored(place, kv, v) && CoveredBy(place, SelectorOf(place, slot), v);
        kv - {PathOf(place, v)}
      else kv
    case NoOp => kv
  }

  ghost function StoreRun(place: Place, kv: map<string, Value>, w: World, ls: seq<Label>): map<string, Value>
    requires Legal(w, ls)
    decreases |ls|
  {
    if ls == [] then kv
    else StoreRun(place, StoreStep(place, kv, StoreOpOf(place, w, ls[0])), Next(w, ls[0]), ls[1..])
  }

  /** The typed map after an operation. */
  ghost function TypedStep(place: Place, typed: map<Slot, Value>, op: StoreOp): map<Slot, Value>
    requires op.PutOp? ==> Storable(place, op.v)
  {
    match op
    case PutOp(v) => typed[SlotOf(place, v) := v]
    case RemoveOp(slot) => typed - {slot}
    case NoOp => typed
  }

  lemma PutRecordSlot(typed: map<Slot, Value>, m: TypedMaps, rec: FDURecord)
    requires Holds(typed, m)
    ensures Holds(typed[RecordSlot(rec.uuid) := RecordV(rec)], m.(records := m.records[rec.uuid := rec]))
  {
  }

  lemma RemoveRecordSlot(typed: map<Slot, Value>, m: TypedMaps, k: Uuid)
    requires Holds(typed, m)
    ensures Holds(typed - {RecordSlot(k)}, m.(records := m.records - {k}))
  {
  }

  lemma PutFduSlot(typed: map<Slot, Value>, m: TypedMaps, fdu: FDUDescriptor, k: Uuid)
    requires Holds(typed, m)
    ensures Holds(typed[FduSlot(k) := FduV(fdu)], m.(catalog := m.catalog[k := fdu]))
  {
  }

  lemma RemoveFduSlot(typed: map<Slot, Value>, m: TypedMaps, k: Uuid)
    requires Holds(typed, m)
    ensures Holds(typed - {FduSlot(k)}, m.(catalog := m.catalog - {k}))
  {
  }

  lemma PutEntitySlot(typed: map<Slot, Value>, m: TypedMaps, entity: EntityDescriptor, k: Uuid)
    requires Holds(typed, m)
    ensures Holds(typed[EntitySlot(k) := EntityV(entity)], m.(entities := m.entities[k := entity]))
  {
  }

  lemma RemoveEntitySlot(typed: map<Slot, Value>, m: TypedMaps, k: Uuid)
    requires Holds(typed, m)
    ensures Holds(typed - {EntitySlot(k)}, m.(entities := m.entities - {k}))
  {
  }

  lemma PutEntityRecordSlot(typed: map<Slot, Value>, m: TypedMaps, rec: EntityRecord)
    requires Holds(typed, m)
    ensures Holds(typed[EntityRecordSlot(rec.uuid) := EntityRecordV(rec)],
                  m.(entityRecords := m.entityRecords[rec.uuid := rec]))
  {
  }

  lemma StepRepresents(place: Place, typed: map<Slot, Value>, w: World, l: Label)
    requires Structure(w) && Enabled(w, l) && Represents(place, typed, w)
    ensures Represents(place, TypedStep(place, typed, StoreOpOf(place, w, l)), Next(w, l))
  {
    if place.LocalPlace? {
      LocalRepresents(place.node, typed, w, l);
    } else {
      GlobalStep(w, l);
      GlobalRepresents(place, typed, w, l);
    }
  }

  lemma GlobalRepresents(place: Place, typed: map<Slot, Value>, w: World, l: Label)
    requires place.GlobalPlace? && Enabled(w, l) && Holds(typed, GlobalMaps(w))
    requires Stepped(GlobalMaps(w), GlobalMaps(Next(w, l)), GlobalOp(w, l))
    ensures Holds(TypedStep(place, typed, GlobalOp(w, l)), GlobalMaps(Next(w, l)))
  {
    MapsStep(place, typed, GlobalMaps(w), GlobalMaps(Next(w, l)), GlobalOp(w, l));
  }

  lemma MapsStep(place: Place, typed: map<Slot, Value>, m: TypedMaps, m': TypedMaps, op: StoreOp)
    requires Holds(typed, m) && Stepped(m, m', op) && (op.PutOp? ==> Storable(place, op.v))
    ensures Holds(TypedStep(place, typed, op), m')
  {
    match op
    case PutOp(RecordV(rec)) => PutRecordSlot(typed, m, rec);
    case PutOp(FduV(fdu)) => PutFduSlot(typed, m, fdu, fdu.uuid.value);
    case PutOp(EntityV(entity)) => PutEntitySlot(typed, m, entity, entity.uuid.value);
    case PutOp(EntityRecordV(rec)) => PutEntityRecordSlot(typed, m, rec);
    case RemoveOp(RecordSlot(i)) => RemoveRecordSlot(typed, m, i);
    case RemoveOp(FduSlot(f)) => RemoveFduSlot(typed, m, f);
    case RemoveOp(EntitySlot(e)) => RemoveEntitySlot(typed, m, e);
    case NoOp =>
  }

  /** What an operation does to the typed maps. No entity record is ever removed. */
  ghost predicate Stepped(m: TypedMaps, m': TypedMaps, op: StoreOp) {
    match op
    case PutOp(RecordV(rec)) => m' == m.(records := m.records[rec.uuid := rec])
    case PutOp(FduV(fdu)) => fdu.uuid.Some? && m' == m.(catalog := m.catalog[fdu.uuid.value := fdu])
    case PutOp(EntityV(entity)) => entity.uuid.Some? && m' == m.(entities := m.entities[entity.uuid.value := entity])
    case PutOp(EntityRecordV(rec)) => m' == m.(entityRecords := m.entityRecords[rec.uuid := rec])
    case RemoveOp(RecordSlot(i)) => m' == m.(records := m.records - {i})
    case RemoveOp(FduSlot(f)) => m' == m.(catalog := m.catalog - {f})
    case RemoveOp(EntitySlot(e)) => m' == m.(entities := m.entities - {e})
    case RemoveOp(EntityRecordSlot(_)) => false
    case NoOp => m' == m
  }

  lemma GlobalStep(w: World, l: Label)
    requires Enabled(w, l)
    ensures Stepped(GlobalMaps(w), GlobalMaps(Next(w, l)), GlobalOp(w, l))
  {
  }

  lemma LocalStep(n: Uuid, w: World, l: Label)
    requires Structure(w) && Enabled(w, l) && n in w.nodes
    ensures n in Next(w, l).nodes && Stepped(LocalMaps(w.nodes[n]), LocalMaps(Next(w, l).nodes[n]), LocalOp(n, w, l))
  {
    if l.PluginCall? && l.n == n {
      PluginLocal(w, n, l.op, l.i);
    } else if l.DefineCall? && l.n == n {
      DefineLocal(w, n, l.fdu, l.drawn);
    } else {
      ElsewhereLocal(n, w, l);
    }
  }

  lemma ElsewhereLocal(n: Uuid, w: World, l: Label)
    requires Enabled(w, l) && n in w.nodes && !((l.PluginCall? || l.DefineCall?) && l.n == n)
    ensures n in Next(w, l).nodes && Next(w, l).nodes[n].local == w.nodes[n].local && LocalOp(n, w, l) == NoOp
  {
    if !(l.Deliver? && l.n == n) { OtherNodesLeft(w, l, n); }
  }

  lemma DefineLocal(w: World, n: Uuid, fdu: Uuid, u: Uuid)
    requires Enabled(w, DefineCall(n, fdu, u))
    ensures var w' := Next(w, DefineCall(n, fdu, u));
      n in w'.nodes && Stepped(LocalMaps(w.nodes[n]), LocalMaps(w'.nodes[n]), LocalOp(n, w, DefineCall(n, fdu, u)))
  {
  }

  lemma PluginLocal(w: World, n: Uuid, op: PluginOp, i: Uuid)
    requires Structure(w) && Enabled(w, PluginCall(n, op, i))
    ensures var m := Apply(w.nodes[n], w.catalog, op, i).0;
      Stepped(LocalMaps(w.nodes[n]), LocalMaps(m), LocalOp(n, w, PluginCall(n, op, i)))
  {
    if i in w.nodes[n].local { OwnRecord(w, n, i); }
    ApplyEffect(w.nodes[n], w.catalog, op, i);
  }

  lemma LocalRepresents(n: Uuid, typed: map<Slot, Value>, w: World, l: Label)
    requires Structure(w) && Enabled(w, l) && Represents(LocalPlace(n), typed, w)
    ensures Represents(LocalPlace(n), TypedStep(LocalPlace(n), typed, LocalOp(n, w, l)), Next(w, l))
  {
    LocalStep(n, w, l);
    MapsStep(LocalPlace(n), typed, LocalMaps(w.nodes[n]), LocalMaps(Next(w, l).nodes[n]), LocalOp(n, w, l));
  }

  lemma RecordsSelfKeyed(w: World)
    requires Structure(w)
    ensures forall i | i in w.records :: w.records[i].uuid == i
    ensures forall n, i | n in w.nodes && i in w.nodes[n].local :: w.nodes[n].local[i].uuid == i
  {
    forall i | i in w.records ensures w.records[i].uuid == i {
      assert TidyRecord(w.records[i], i, w.records[i].node, w.issued);
    }
    forall n, i | n in w.nodes && i in w.nodes[n].local ensures w.nodes[n].local[i].uuid == i {
      OwnRecord(w, n, i);
    }
  }

  lemma RepresentsTyped(place: Place, typed: map<Slot, Value>, w: World)
    requires Structure(w) && Represents(place, typed, w)
    ensures Typed(place, typed) && forall v | Storable(place, v) :: TypedHas(place, typed, v) <==> WorldHas(place, w, v)
  {
    RecordsSelfKeyed(w);
    SlotsTyped(place, typed, if place.LocalPlace? then LocalMaps(w.nodes[place.node]) else GlobalMaps(w));
  }

  lemma SlotsTyped(place: Place, typed: map<Slot, Value>, m: TypedMaps)
    requires Holds(typed, m) && (place.LocalPlace? ==> m == TypedMaps(m.records, map[], map[], map[]))
    requires forall i | i in m.records :: m.records[i].uuid == i
    requires forall f | f in m.catalog :: m.catalog[f].uuid == Some(f)
    requires forall e | e in m.entities :: m.entities[e].uuid == Some(e)
    requires forall r | r in m.entityRecords :: m.entityRecords[r].uuid == r
    ensures Typed(place, typed) && forall v | Storable(place, v) :: TypedHas(place, typed, v) <==> InMaps(m, v)
  {
    forall slot | slot in typed ensures InSlot(place, slot, typed[slot]) {
      match slot
      case RecordSlot(i) => assert typed[RecordSlot(i)] == RecordV(m.records[i]);
      case FduSlot(f) => assert typed[FduSlot(f)] == FduV(m.catalog[f]);
      case EntitySlot(e) => assert typed[EntitySlot(e)] == EntityV(m.entities[e]);
      case EntityRecordSlot(r) => assert typed[EntityRecordSlot(r)] == EntityRecordV(m.entityRecords[r]);
    }
    forall v | Storable(place, v) ensures TypedHas(place, typed, v) <==> InMaps(m, v) {
      SlotHolds(place, typed, m, v);
    }
  }

  lemma SlotHolds(place: Place, typed: map<Slot, Value>, m: TypedMaps, v: Value)
    requires Holds(typed, m) && Storable(place, v)
    ensures TypedHas(place, typed, v) <==> InMaps(m, v)
  {
    match v
    case RecordV(rec) => assert RecordSlot(rec.uuid) in typed <==> rec.uuid in m.records;
    case FduV(fdu) => assert FduSlot(fdu.uuid.value) in typed <==> fdu.uuid.value in m.catalog;
    case EntityV(entity) => assert EntitySlot(entity.uuid.value) in typed <==> entity.uuid.value in m.entities;
    case EntityRecordV(erec) => assert EntityRecordSlot(erec.uuid) in typed <==> erec.uuid in m.entityRecords;
  }

  /** A plugin writes a record of an instance under the FDU that the local store has it under. */
  lemma WrittenKeepsFdu(w: World, l: Label, n: Uuid)
    requires Structure(w) && Enabled(w, l) && n in w.nodes && Wrote(w, l, n) != []
    ensures var rec := Wrote(w, l, n)[0];
      rec.uuid in w.nodes[n].local ==> w.nodes[n].local[rec.uuid].fduUuid == rec.fduUuid
  {
    if l.PluginCall? {
      PluginEffect(w, n, l.op, l.i);
    } else if l.drawn in w.nodes[n].local {
      OwnRecord(w, n, l.drawn);
    }
  }

  /** A step's put goes where the slot's value already is. */
  lemma PutStays(place: Place, typed: map<Slot, Value>, w: World, l: Label, v: Value)
    requires Structure(w) && OneFdu(w) && Enabled(w, l) && StoreOpOf(place, w, l) == PutOp(v)
    requires Represents(place, typed, w) && Typed(place, typed) && Storable(place, v)
    ensures SamePlaceIn(place, typed, v)
  {
    if place.LocalPlace? {
      WrittenKeepsFdu(w, l, place.node);
    } else if l.Deliver? {
      DeliverKeepsFdu(w, l.n);
    }
  }

  lemma StepRefines(place: Place, kv: map<string, Value>, typed: map<Slot, Value>, w: World, l: Label)
    requires Structure(w) && OneFdu(w) && Enabled(w, l)
    requires Represents(place, typed, w) && Refines(place, kv, typed)
    ensures Refines(place, StoreStep(place, kv, StoreOpOf(place, w, l)),
                    TypedStep(place, typed, StoreOpOf(place, w, l)))
  {
    match StoreOpOf(place, w, l)
    case PutOp(v) =>
      PutStays(place, typed, w, l, v);
      PutRefinesIff(place, kv, typed, v);
    case RemoveOp(slot) => RemoveRefines(place, kv, typed, slot);
    case NoOp =>
  }

  lemma RemoveRefines(place: Place, kv: map<string, Value>, typed: map<Slot, Value>, slot: Slot)
    requires (slot.RecordSlot? || place.GlobalPlace?) && Refines(place, kv, typed)
    ensures Refines(place, StoreStep(place, kv, RemoveOp(slot)), typed - {slot})
  {
    forall v
      ensures Stored(place, kv, v) && CoveredBy(place, SelectorOf(place, slot), v)
        <==> slot in typed && typed[slot] == v
    {
      LookupRefines(place, kv, typed, slot, v);
    }
    if slot in typed {
      assert InSlot(place, slot, typed[slot]);
      assert Stored(place, kv, typed[slot]) && CoveredBy(place, SelectorOf(place, slot), typed[slot]);
      DeleteRefines(place, kv, typed, slot);
    } else {
      assert typed - {slot} == typed;
    }
  }

  /** Over every run, the string store refines the typed maps of its place. */
  lemma {:induction false} RunRefines(place: Place, kv: map<string, Value>, typed: map<Slot, Value>, w: World,
                                      ls: seq<Label>)
    returns (typed': map<Slot, Value>)
    requires Structure(w) && OneFdu(w) && Legal(w, ls)
    requires Represents(place, typed, w) && Refines(place, kv, typed)
    ensures Represents(place, typed', Exec(w, ls)) && Refines(place, StoreRun(place, kv, w, ls), typed')
    decreases |ls|
  {
    if ls == [] {
      typed' := typed;
    } else {
      var op := StoreOpOf(place, w, ls[0]);
      StepRepresents(place, typed, w, ls[0]);
      StepRefines(place, kv, typed, w, ls[0]);
      StepKeepsStructure(w, ls[0]);
      StepKeepsOneFdu(w, ls[0]);
      typed' := RunRefines(place, StoreStep(place, kv, op), TypedStep(place, typed, op), Next(w, ls[0]), ls[1..]);
    }
  }

  /** From empty stores, after any run, serialised or not, the string store of the system or of a
      node holds exactly the values of its typed maps, and TooMuchError cannot arise. */
  lemma StoreRefinesFromStart(place: Place, w: World, ls: seq<Label>)
    requires Init(w) && Legal(w, ls) && (place.LocalPlace? ==> place.node in w.nodes)
    ensures var kv := StoreRun(place, map[], w, ls);
      && WellKeyed(place, kv)
      && (forall v :: Stored(place, kv, v) <==> Storable(place, v) && WorldHas(place, Exec(w, ls), v))
      && (forall i :: !TwoFdus(place, kv, i) && !TwoEntities(place, kv, i))
  {
    StartsWithNone(w);
    var typed := RunRefines(place, map[], map[], w, ls);
    var kv := StoreRun(place, map[], w, ls);
    RunKeepsStructure(w, ls);
    RepresentsTyped(place, typed, Exec(w, ls));
    forall i ensures !TwoFdus(place, kv, i) && !TwoEntities(place, kv, i) {
      NeverTooMuch(place, kv, typed, i);
    }
    forall v ensures Stored(place, kv, v) <==> Storable(place, v) && WorldHas(place, Exec(w, ls), v) {
      assert Stored(place, kv, v) <==> TypedHas(place, typed, v);
    }
  }
}
