/** The key-value store behind the global and local stores: values lie at the path built from their
    own ids and are read back through selectors; typed maps are what it refines. */
module Store {
  import opened Model
  import opened Paths

  datatype Value =
    | RecordV(rec: FDURecord)
    | FduV(fdu: FDUDescriptor)
    | EntityV(entity: EntityDescriptor)
    | EntityRecordV(erec: EntityRecord)

  /** Whose store it is: one system and tenant, or one node. */
  datatype Place = GlobalPlace(sys: Uuid, tenant: Uuid) | LocalPlace(node: Uuid)

  /** What the place can hold; descriptors need their UUID filled in. */
  predicate Storable(place: Place, v: Value) {
    match v
    case RecordV(_) => true
    case FduV(fdu) => place.GlobalPlace? && fdu.uuid.Some?
    case EntityV(entity) => place.GlobalPlace? && entity.uuid.Some?
    case EntityRecordV(_) => place.GlobalPlace?
  }

  /** The path or selector of an FDU instance. */
  function InstanceAddress(place: Place, fdu: Option<Uuid>, i: Option<Uuid>): Address {
    match place
    case GlobalPlace(sys, tenant) => GlobalA(sys, tenant, FduInstanceAt(fdu, i))
    case LocalPlace(node) => LocalA(node, InstanceAt(fdu, i))
  }

  function AddressOf(place: Place, v: Value): (a: Address)
    requires Storable(place, v)
    ensures Concrete(a)
  {
    match v
    case RecordV(rec) => InstanceAddress(place, Some(rec.fduUuid), Some(rec.uuid))
    case FduV(fdu) => GlobalA(place.sys, place.tenant, FduAt(fdu.uuid))
    case EntityV(entity) => GlobalA(place.sys, place.tenant, EntityAt(entity.uuid))
    case EntityRecordV(erec) => GlobalA(place.sys, place.tenant, EntityInstanceAt(Some(erec.id), Some(erec.uuid)))
  }

  function PathOf(place: Place, v: Value): string
    requires Storable(place, v)
  {
    Render(AddressOf(place, v))
  }

  /** Every value lies at the path built from its own ids. */
  ghost predicate WellKeyed(place: Place, kv: map<string, Value>) {
    forall p | p in kv :: Storable(place, kv[p]) && p == PathOf(place, kv[p])
  }

  ghost predicate Stored(place: Place, kv: map<string, Value>, v: Value) {
    Storable(place, v) && PathOf(place, v) in kv && kv[PathOf(place, v)] == v
  }

  ghost predicate CoveredBy(place: Place, s: Address, v: Value) {
    Storable(place, v) && Covers(s, AddressOf(place, v))
  }

  /** What a selector reads, as values. */
  lemma SelectedAre(place: Place, kv: map<string, Value>, s: Address, p: string)
    requires WellKeyed(place, kv) && p in kv
    ensures Stored(place, kv, kv[p]) && (Selects(Render(s), p) <==> CoveredBy(place, s, kv[p]))
  {
    SelectorExact(s, AddressOf(place, kv[p]));
  }

  // ---------------------------------------------------------------- the store

  class KeyValueStore {
    const place: Place
    var kv: map<string, Value>

    ghost predicate Valid()
      reads this
    {
      WellKeyed(place, kv)
    }

    constructor (place: Place)
      ensures Valid() && kv == map[] && this.place == place
    {
      this.place, kv := place, map[];
    }

    /** The values that a selector matches, in the order the store happens to list them. */
    method Get(s: Address) returns (data: seq<Value>)
      requires Valid()
      ensures NoDup(data)
      ensures forall v :: v in data <==> Stored(place, kv, v) && CoveredBy(place, s, v)
    {
      data := [];
      var rest := kv.Keys;
      while rest != {}
        invariant rest <= kv.Keys && NoDup(data)
        invariant forall v | v in data :: Stored(place, kv, v) && CoveredBy(place, s, v) && PathOf(place, v) !in rest
        invariant forall p | p in kv && p !in rest && CoveredBy(place, s, kv[p]) :: kv[p] in data
        decreases |rest|
      {
        var p :| p in rest;
        SelectedAre(place, kv, s, p);
        rest := rest - {p};
        if Selects(Render(s), p) {
          data := data + [kv[p]];
        }
      }
    }

    /** The common shape of every get of one value. */
    method GetOne(s: Address) returns (r: Result<Value>)
      requires Valid()
      ensures r == Err(NotFound) <==> forall v :: Stored(place, kv, v) ==> !CoveredBy(place, s, v)
      ensures r.Ok? ==> Stored(place, kv, r.value) && CoveredBy(place, s, r.value)
      ensures r.Ok? ==> forall v :: Stored(place, kv, v) && CoveredBy(place, s, v) ==> v == r.value
      ensures r.Err? ==> r.error == NotFound || r.error == TooMuchError
      ensures r == Err(TooMuchError) ==> exists a, b :: a != b && BothRead(place, kv, s, a, b)
    {
      var data := Get(s);
      match |data| {
        case 0 =>
          EmptyIff(data);
          return Err(NotFound);
        case 1 =>
          assert data[0] in data;
          return Ok(data[0]);
        case _ =>
          assert data[0] in data && data[1] in data;
          assert BothRead(place, kv, s, data[0], data[1]);
          return Err(TooMuchError);
      }
    }

    method Put(v: Value)
      requires Valid() && Storable(place, v)
      modifies this`kv
      ensures Valid() && kv == old(kv)[PathOf(place, v) := v]
    {
      kv := kv[Render(AddressOf(place, v)) := v];
    }

    method Delete(a: Address)
      requires Valid()
      modifies this`kv
      ensures Valid() && kv == old(kv) - {Render(a)}
    {
      kv := kv - {Render(a)};
    }

    // -------------------------------------------------------------- FDU instances

    /** get_instance: the one record of this instance; TooMuchError exactly when the instance is
        stored under two FDU UUIDs. */
    method GetInstance(i: Uuid) returns (r: Result<FDURecord>)
      requires Valid()
      ensures r == Err(NotFound) <==> forall rec: FDURecord | rec.uuid == i :: !Stored(place, kv, RecordV(rec))
      ensures r.Ok? ==> r.value.uuid == i && Stored(place, kv, RecordV(r.value))
      ensures r.Ok? ==> forall rec: FDURecord | rec.uuid == i && Stored(place, kv, RecordV(rec)) :: rec == r.value
      ensures r.Err? ==> r.error == NotFound || r.error == TooMuchError
      ensures r == Err(TooMuchError) <==> TwoFdus(place, kv, i)
    {
      var s := InstanceAddress(place, None, Some(i));
      var one := GetOne(s);
      InstanceReads(place, kv, i);
      if one.Err? {
        r := Err(one.error);
      } else {
        r := Ok(one.value.rec);
      }
    }

    /** get_all_fdu_instances: exactly the stored records of this descriptor, each once. */
    method GetAllFduInstances(f: Uuid) returns (records: seq<FDURecord>)
      requires Valid()
      ensures NoDup(records)
      ensures forall rec :: rec in records <==> rec.fduUuid == f && Stored(place, kv, RecordV(rec))
    {
      var data := Get(InstanceAddress(place, Some(f), None));
      records := [];
      for k := 0 to |data|
        invariant |records| == k
        invariant forall j | 0 <= j < k :: data[j] == RecordV(records[j])
      {
        assert data[k] in data;
        records := records + [data[k].rec];
      }
      forall rec ensures rec in records <==> RecordV(rec) in data {
        if RecordV(rec) in data {
          var j :| 0 <= j < |data| && data[j] == RecordV(rec);
          assert records[j] == rec;
        }
      }
    }

    method AddInstance(rec: FDURecord)
      requires Valid()
      modifies this`kv
      ensures Valid() && kv == old(kv)[PathOf(place, RecordV(rec)) := RecordV(rec)]
    {
      Put(RecordV(rec));
    }

    /** remove_instance: deletes precisely the key that the get read. */
    method RemoveInstance(i: Uuid) returns (r: Result<()>)
      requires Valid()
      modifies this`kv
      ensures Valid()
      ensures r.Ok? ==> exists rec: FDURecord ::
          rec.uuid == i && Stored(place, old(kv), RecordV(rec)) && kv == old(kv) - {PathOf(place, RecordV(rec))}
      ensures r.Ok? ==> forall rec: FDURecord | rec.uuid == i :: !Stored(place, kv, RecordV(rec))
      ensures r.Err? ==> kv == old(kv) && (r.error == NotFound || r.error == TooMuchError)
      ensures r == Err(TooMuchError) <==> TwoFdus(place, old(kv), i)
      ensures r == Err(NotFound) <==> forall rec: FDURecord | rec.uuid == i :: !Stored(place, old(kv), RecordV(rec))
    {
      var rec := GetInstance(i);
      if rec.Err? {
        return Err(rec.error);
      }
      Delete(InstanceAddress(place, Some(rec.value.fduUuid), Some(rec.value.uuid)));
      r := Ok(());
    }

    // -------------------------------------------------------------- entity instances

    /** get_entity_instance, likewise, on the global store: TooMuchError exactly when the entity instance
        is stored under two entities. */
    method GetEntityInstance(i: Uuid) returns (r: Result<EntityRecord>)
      requires Valid() && place.GlobalPlace?
      ensures r == Err(NotFound) <==> forall rec: EntityRecord | rec.uuid == i :: !Stored(place, kv, EntityRecordV(rec))
      ensures r.Ok? ==> r.value.uuid == i && Stored(place, kv, EntityRecordV(r.value))
      ensures r.Ok? ==> forall rec: EntityRecord | rec.uuid == i && Stored(place, kv, EntityRecordV(rec)) ::
          rec == r.value
      ensures r.Err? ==> r.error == NotFound || r.error == TooMuchError
      ensures r == Err(TooMuchError) <==> TwoEntities(place, kv, i)
    {
      var one := GetOne(GlobalA(place.sys, place.tenant, EntityInstanceAt(None, Some(i))));
      EntityInstanceReads(place, kv, i);
      if one.Err? {
        r := Err(one.error);
      } else {
        r := Ok(one.value.erec);
      }
    }
  }

  ghost predicate BothRead(place: Place, kv: map<string, Value>, s: Address, a: Value, b: Value) {
    Stored(place, kv, a) && Stored(place, kv, b) && CoveredBy(place, s, a) && CoveredBy(place, s, b)
  }

  /** The instance is stored under two FDU UUIDs. */
  ghost predicate TwoFdus(place: Place, kv: map<string, Value>, i: Uuid) {
    exists a: FDURecord, b: FDURecord ::
      && a.uuid == i && b.uuid == i && a.fduUuid != b.fduUuid
      && Stored(place, kv, RecordV(a)) && Stored(place, kv, RecordV(b))
  }

  /** The entity instance is stored under two entities. */
  ghost predicate TwoEntities(place: Place, kv: map<string, Value>, i: Uuid) {
    exists a: EntityRecord, b: EntityRecord ::
      && a.uuid == i && b.uuid == i && a.id != b.id
      && Stored(place, kv, EntityRecordV(a)) && Stored(place, kv, EntityRecordV(b))
  }

  /** What the selector of get_entity_instance covers. */
  lemma EntityInstanceReads(place: Place, kv: map<string, Value>, i: Uuid)
    requires place.GlobalPlace?
    ensures var s := GlobalA(place.sys, place.tenant, EntityInstanceAt(None, Some(i)));
      && (forall v :: CoveredBy(place, s, v) <==> v.EntityRecordV? && v.erec.uuid == i)
      && ((exists a, b :: a != b && BothRead(place, kv, s, a, b)) <==> TwoEntities(place, kv, i))
  {
    var s := GlobalA(place.sys, place.tenant, EntityInstanceAt(None, Some(i)));
    forall v ensures CoveredBy(place, s, v) <==> v.EntityRecordV? && v.erec.uuid == i {
    }
    if a, b :| a != b && BothRead(place, kv, s, a, b) {
      assert a.erec.id != b.erec.id;
    }
    if TwoEntities(place, kv, i) {
      var a: EntityRecord, b: EntityRecord :|
        && a.uuid == i && b.uuid == i && a.id != b.id
        && Stored(place, kv, EntityRecordV(a)) && Stored(place, kv, EntityRecordV(b));
      assert BothRead(place, kv, s, EntityRecordV(a), EntityRecordV(b));
    }
  }

  /** What the selector of get_instance covers. */
  lemma InstanceReads(place: Place, kv: map<string, Value>, i: Uuid)
    ensures var s := InstanceAddress(place, None, Some(i));
      && (forall v :: CoveredBy(place, s, v) <==> v.RecordV? && v.rec.uuid == i)
      && ((exists a, b :: a != b && BothRead(place, kv, s, a, b)) <==> TwoFdus(place, kv, i))
  {
    var s := InstanceAddress(place, None, Some(i));
    forall v ensures CoveredBy(place, s, v) <==> v.RecordV? && v.rec.uuid == i {
    }
    if a, b :| a != b && BothRead(place, kv, s, a, b) {
      assert a.rec.fduUuid != b.rec.fduUuid;
    }
    if TwoFdus(place, kv, i) {
      var a: FDURecord, b: FDURecord :|
        && a.uuid == i && b.uuid == i && a.fduUuid != b.fduUuid
        && Stored(place, kv, RecordV(a)) && Stored(place, kv, RecordV(b));
      assert BothRead(place, kv, s, RecordV(a), RecordV(b));
    }
  }
}
