/** The dummy hypervisor plugin as an object that drives the network plugin: its loops over
    connection points and interfaces are proved to compute what Hypervisor specifies. */
module HypervisorPlugin {
  import opened Model
  import opened Network
  import opened Hypervisor
  import opened NetworkPlugin

  /** Dafny's view of a HashMap iteration: some order that lists every key once. */
  ghost predicate IterationOf(order: seq<string>, keys: set<string>) {
    NoDup(order) && (set id | id in order) == keys
  }

  lemma SomeIteration(keys: set<string>) returns (order: seq<string>)
    ensures IterationOf(order, keys)
    decreases |keys|
  {
    if keys == {} {
      order := [];
    } else {
      var id :| id in keys;
      var rest := SomeIteration(keys - {id});
      order := [id] + rest;
      assert (set x | x in order) == {id} + (set x | x in rest);
      assert forall x :: x in rest <==> x in (set y | y in rest);
    }
  }

  function Prepend(acc: seq<FDURecordInterface>,
                   p: (Net, Result<seq<FDURecordInterface>>)): (Net, Result<seq<FDURecordInterface>>) {
    (p.0, if p.1.Err? then p.1 else Ok(acc + p.1.value))
  }

  lemma PrependNothing(p: (Net, Result<seq<FDURecordInterface>>))
    ensures Prepend([], p) == p
  {
    if p.1.Ok? { assert [] + p.1.value == p.1.value; }
  }

  /** One step of the interface recursion, behind the interfaces already collected. */
  lemma AllocateUnfolds(net: Net, ns: Uuid, intfs: seq<Interface>, draws: seq<VethDraw>, table: CpTable,
                        acc: seq<FDURecordInterface>)
    requires |intfs| == |draws| && intfs != []
    ensures var (net1, first) := AllocateInterface(net, ns, intfs[0], draws[0], table);
      Prepend(acc, AllocateInterfaces(net, ns, intfs, draws, table)) ==
        if first.Err? then (net1, Err(first.error))
        else Prepend(acc + [first.value], AllocateInterfaces(net1, ns, intfs[1..], draws[1..], table))
  {
    var (net1, first) := AllocateInterface(net, ns, intfs[0], draws[0], table);
    if first.Ok? {
      var rest := AllocateInterfaces(net1, ns, intfs[1..], draws[1..], table).1;
      if rest.Ok? { assert acc + ([first.value] + rest.value) == acc + [first.value] + rest.value; }
    }
  }

  /** After k turns from the store start these interfaces are collected and the store is net. */
  ghost predicate Collected(start: Net, net: Net, ns: Uuid, intfs: seq<Interface>, draws: seq<VethDraw>, table: CpTable,
                            k: nat, interfaces: seq<FDURecordInterface>)
    requires k <= |intfs| == |draws|
  {
    AllocateInterfaces(start, ns, intfs, draws, table)
      == Prepend(interfaces, AllocateInterfaces(net, ns, intfs[k..], draws[k..], table))
  }

  /** The interface loop as a whole led from the store start to net with this result. */
  ghost predicate Allocated(start: Net, net: Net, ns: Uuid, intfs: seq<Interface>, draws: seq<VethDraw>, table: CpTable,
                            r: Result<seq<FDURecordInterface>>)
    requires |intfs| == |draws|
  {
    AllocateInterfaces(start, ns, intfs, draws, table) == (net, r)
  }

  lemma NothingCollected(start: Net, ns: Uuid, intfs: seq<Interface>, draws: seq<VethDraw>, table: CpTable)
    requires |intfs| == |draws|
    ensures draws[0..] == draws && Collected(start, start, ns, intfs, draws, table, 0, [])
  {
    assert intfs[0..] == intfs;
    PrependNothing(AllocateInterfaces(start, ns, intfs, draws, table));
  }

  lemma AllCollected(start: Net, net: Net, ns: Uuid, intfs: seq<Interface>, draws: seq<VethDraw>, table: CpTable,
                     interfaces: seq<FDURecordInterface>)
    requires |intfs| == |draws| && Collected(start, net, ns, intfs, draws, table, |intfs|, interfaces)
    ensures Allocated(start, net, ns, intfs, draws, table, Ok(interfaces))
  {
    assert interfaces + [] == interfaces;
  }

  lemma {:induction false} EntriesAppend(table: CpTable, order: seq<string>, id: string)
    requires (forall x | x in order :: x in table) && id in table
    ensures TableEntries(table, order + [id]) == TableEntries(table, order) + [table[id]]
  {
    if order == [] {
      assert [] + [id] == [id];
      assert [id][1..] == [];
    } else {
      EntriesAppend(table, order[1..], id);
      assert (order + [id])[1..] == order[1..] + [id];
    }
  }

  lemma FreshPairIssued(issued: set<Uuid>, d: VethDraw)
    ensures Issue(issued, [d.internal, d.external]) == issued + {d.internal, d.external}
    ensures d.internal != d.external && d.internal !in issued && d.external !in issued ==>
        Fresh([d.internal, d.external], issued)
  {
    assert [d.internal, d.external][0] == d.internal && [d.internal, d.external][1] == d.external;
  }

  /** The next pair to draw is new, and the ones after it still are once it is drawn. */
  lemma FreshNext(draws: seq<VethDraw>, k: nat, issued: set<Uuid>)
    requires k < |draws| && FreshVeths(draws[k..], issued)
    ensures Fresh([draws[k].internal, draws[k].external], issued)
    ensures FreshVeths(draws[k + 1..], Issue(issued, [draws[k].internal, draws[k].external]))
  {
    FreshPairIssued(issued, draws[k]);
    assert draws[k..][0] == draws[k] && draws[k..][1..] == draws[k + 1..];
  }

  class DummyHypervisor {
    const net: DummyNetwork
    var local: map<Uuid, FDURecord>
    var fdus: map<Uuid, FDURecord>
    var fifo: seq<FDURecord>

    /** The network plugin's resource graph is well formed. */
    ghost predicate Valid()
      reads this, net
    {
      net.Valid()
    }

    function State(): Node
      reads this, net
    {
      Node(net.Store(), local, fdus, fifo)
    }

    constructor (net: DummyNetwork)
      requires net.Valid() && net.Store() == EMPTY_NET
      ensures Valid() && this.net == net && State() == EMPTY_NODE
    {
      this.net := net;
      local, fdus, fifo := map[], map[], [];
    }

    /** add_instance on the local connector, as the subscription sees it, and the cache. */
    method PutInstance(rec: FDURecord)
      requires Valid()
      modifies this
      ensures Valid() && State() == Put(old(State()), rec)
    {
      local := local[rec.uuid := rec];
      fifo := fifo + [rec];
      fdus := fdus[rec.uuid := rec];
    }

    method DefineFdu(nodeUuid: Uuid, fdu: FDUDescriptor, drawn: Uuid) returns (r: Result<FDURecord>)
      requires Valid() && fdu.uuid.Some?
      modifies this
      ensures Valid()
      ensures (State(), r) == Hypervisor.Define(old(State()), nodeUuid, fdu.uuid.value, drawn)
    {
      var instance := FDURecord(drawn, fdu.uuid.value, nodeUuid, [], [], DEFINED, None, 0);
      PutInstance(instance);
      r := Ok(instance);
    }

    method UndefineFdu(i: Uuid) returns (r: Result<Uuid>)
      requires Valid()
      modifies this
      ensures Valid()
      ensures (State(), r) == Hypervisor.Undefine(old(State()), i)
    {
      if i !in local {
        return Err(NotFound);
      }
      if local[i].status != DEFINED {
        return Err(TransitionNotAllowed);
      }
      fdus := fdus - {i};
      local := local - {i};
      r := Ok(i);
    }

    method StartFdu(i: Uuid) returns (r: Result<Uuid>)
      requires Valid()
      modifies this
      ensures Valid()
      ensures (State(), r) == Hypervisor.Start(old(State()), i)
    {
      if i !in local {
        return Err(NotFound);
      }
      var instance := local[i];
      if instance.status != CONFIGURED {
        return Err(TransitionNotAllowed);
      }
      instance := instance.(status := RUNNING);
      PutInstance(instance);
      r := Ok(i);
    }

    method StopFdu(i: Uuid) returns (r: Result<Uuid>)
      requires Valid()
      modifies this
      ensures Valid()
      ensures (State(), r) == Hypervisor.Stop(old(State()), i)
    {
      if i !in local {
        return Err(NotFound);
      }
      var instance := local[i];
      if instance.status != RUNNING {
        return Err(TransitionNotAllowed);
      }
      instance := instance.(status := CONFIGURED);
      PutInstance(instance);
      r := Ok(i);
    }

    method CleanFdu(i: Uuid) returns (r: Result<Uuid>)
      requires Valid()
      modifies this, net
      ensures Valid()
      ensures (State(), r) == Hypervisor.Clean(old(State()), i)
    {
      if i !in local {
        return Err(NotFound);
      }
      var instance := local[i];
      if instance.status != CONFIGURED {
        return Err(TransitionNotAllowed);
      }
      if instance.hypervisorSpecific.None? {
        return Err(UnknownError("panic"));
      }
      var r1 := net.DeleteNetworkNamespace(instance.hypervisorSpecific.value);
      if r1.Err? {
        return Err(r1.error);
      }
      var k := 0;
      ghost var net1 := net.Store();
      while k < |instance.interfaces|
        invariant 0 <= k <= |instance.interfaces|
        invariant net.Valid()
        invariant ReleaseInterfaces(net1, instance.interfaces)
          == ReleaseInterfaces(net.Store(), instance.interfaces[k..])
        invariant local == old(local) && fdus == old(fdus) && fifo == old(fifo)
      {
        assert instance.interfaces[k..][1..] == instance.interfaces[k + 1..];
        var deleted := net.DeleteVirtualInterface(instance.interfaces[k].intfUuid);
        if deleted.Err? {
          return Err(deleted.error);
        }
        k := k + 1;
      }
      k := 0;
      ghost var net2 := net.Store();
      while k < |instance.connectionPoints|
        invariant 0 <= k <= |instance.connectionPoints|
        invariant net.Valid()
        invariant ReleaseCps(net2, instance.connectionPoints) == ReleaseCps(net.Store(), instance.connectionPoints[k..])
        invariant local == old(local) && fdus == old(fdus) && fifo == old(fifo)
      {
        assert instance.connectionPoints[k..][1..] == instance.connectionPoints[k + 1..];
        var deleted := net.DeleteConnectionPoint(instance.connectionPoints[k].uuid);
        if deleted.Err? {
          return Err(deleted.error);
        }
        k := k + 1;
      }
      instance := instance.(interfaces := [], connectionPoints := []);
      instance := instance.(status := DEFINED);
      PutInstance(instance);
      r := Ok(i);
    }

    /** The draws of the namespace, the connection points and the interfaces are inputs; the
        iteration order of the HashMap is any order, reported in the ghost out-parameter. */
    method ConfigureFdu(catalog: map<Uuid, FDUDescriptor>, i: Uuid, ns: Uuid, cpDraws: seq<CpDraw>,
                        vethDraws: seq<VethDraw>)
      returns (r: Result<Uuid>, ghost order: seq<string>)
      requires i in local && local[i].fduUuid in catalog ==>
        && |cpDraws| == |catalog[local[i].fduUuid].connectionPoints|
        && |vethDraws| == |catalog[local[i].fduUuid].interfaces|
      requires Valid() && FreshDraws(ConfigureDraws(ns, cpDraws, vethDraws, []), net.issued)
      modifies this, net
      ensures Valid()
      ensures old(i in local && local[i].fduUuid in catalog) ==>
        DrawsFit(catalog[old(local[i].fduUuid)], ConfigureDraws(ns, cpDraws, vethDraws, order))
      ensures (State(), r)
        == Hypervisor.Configure(old(State()), catalog, i, ConfigureDraws(ns, cpDraws, vethDraws, order))
    {
      order := [];
      if i !in local {
        return Err(NotFound), order;
      }
      var instance := local[i];
      if instance.fduUuid in catalog {
        order := SomeIteration(CpIds(catalog[instance.fduUuid].connectionPoints));
      }
      if instance.status != DEFINED {
        return Err(TransitionNotAllowed), order;
      }
      if instance.fduUuid !in catalog {
        return Err(NotFound), order;
      }
      var desc := catalog[instance.fduUuid];
      assert [ns][0] == ns;
      var created := net.CreateNetworkNamespace(ns);
      assert net.issued == old(net.issued) + {ns};

      var table, listed := TableFor(desc.connectionPoints, cpDraws);
      if listed.Err? {
        return Err(listed.error), order;
      }

      var interfaces: seq<FDURecordInterface>;
      interfaces, r := AllocateFor(ns, desc.interfaces, vethDraws, table);
      if r.Err? {
        return r, order;
      }

      var entries: seq<FDURecordConnectionPoint>;
      entries, order := IntoEntries(table);
      instance := instance.(interfaces := interfaces, connectionPoints := entries,
                            status := CONFIGURED, hypervisorSpecific := Some(ns));
      PutInstance(instance);
      r := Ok(i);
    }

    /** The loop of configure_fdu over the descriptor's connection points. */
    method TableFor(cps: seq<ConnectionPointDescriptor>, draws: seq<CpDraw>) returns (table: CpTable, r: Result<()>)
      requires |cps| == |draws| && Valid() && FreshCps(draws, net.issued)
      modifies net
      ensures Valid() && (r.Ok? ==> net.issued == IssueCps(old(net.issued), draws))
      ensures var p := AllocateCps(old(net.Store()), cps, draws, map[]);
        net.Store() == p.0 && (if p.1.Ok? then r.Ok? && p.1.value == table else r == Err(p.1.error))
    {
      table := map[];
      var k := 0;
      while k < |cps|
        invariant 0 <= k <= |cps|
        invariant Valid() && FreshCps(draws[k..], net.issued)
        invariant IssueCps(old(net.issued), draws) == IssueCps(net.issued, draws[k..])
        invariant AllocateCps(old(net.Store()), cps, draws, map[])
          == AllocateCps(net.Store(), cps[k..], draws[k..], table)
      {
        var cp := cps[k];
        assert cps[k..][1..] == cps[k + 1..] && draws[k..][1..] == draws[k + 1..];
        var vcp := net.CreateConnectionPoint(draws[k]);
        if vcp.Err? {
          return table, Err(vcp.error);
        }
        table := table[cp.id := FDURecordConnectionPoint(vcp.value.uuid, cp.id)];
        k := k + 1;
      }
      r := Ok(());
    }

    /** The loop of configure_fdu over the descriptor's interfaces. */
    method AllocateFor(ns: Uuid, intfs: seq<Interface>, draws: seq<VethDraw>, table: CpTable)
      returns (interfaces: seq<FDURecordInterface>, r: Result<Uuid>)
      requires |intfs| == |draws| && Valid() && FreshVeths(draws, net.issued)
      modifies net
      ensures Valid()
      ensures Allocated(old(net.Store()), net.Store(), ns, intfs, draws, table,
                        if r.Ok? then Ok(interfaces) else Err(r.error))
    {
      interfaces := [];
      ghost var start := net.Store();
      NothingCollected(start, ns, intfs, draws, table);
      var k := 0;
      while k < |intfs|
        invariant 0 <= k <= |intfs|
        invariant Valid() && FreshVeths(draws[k..], net.issued)
        invariant Collected(start, net.Store(), ns, intfs, draws, table, k, interfaces)
      {
        var fduIntf := AllocateNext(ns, intfs, draws, table, k, interfaces, start);
        if fduIntf.Err? {
          return interfaces, Err(fduIntf.error);
        }
        interfaces := interfaces + [fduIntf.value];
        k := k + 1;
      }
      AllCollected(start, net.Store(), ns, intfs, draws, table, interfaces);
      r := Ok(ns);
    }

    /** One turn of that loop, behind the interfaces already collected. */
    method AllocateNext(ns: Uuid, intfs: seq<Interface>, draws: seq<VethDraw>, table: CpTable, k: nat,
                        interfaces: seq<FDURecordInterface>, ghost start: Net)
      returns (r: Result<FDURecordInterface>)
      requires k < |intfs| == |draws| && Valid() && FreshVeths(draws[k..], net.issued)
      requires Collected(start, net.Store(), ns, intfs, draws, table, k, interfaces)
      modifies net
      ensures Valid() && FreshVeths(draws[k + 1..], net.issued)
      ensures r.Ok? ==> Collected(start, net.Store(), ns, intfs, draws, table, k + 1, interfaces + [r.value])
      ensures r.Err? ==> Allocated(start, net.Store(), ns, intfs, draws, table, Err(r.error))
    {
      AllocateUnfolds(net.Store(), ns, intfs[k..], draws[k..], table, interfaces);
      assert intfs[k..][1..] == intfs[k + 1..] && draws[k..][1..] == draws[k + 1..];
      FreshNext(draws, k, net.issued);
      r := AllocateOne(ns, intfs[k], draws[k], table);
    }

    /** A VETH pair for one interface. */
    method AllocateOne(ns: Uuid, intf: Interface, d: VethDraw, table: CpTable) returns (r: Result<FDURecordInterface>)
      requires Valid() && Fresh([d.internal, d.external], net.issued)
      modifies net
      ensures Valid() && net.issued == Issue(old(net.issued), [d.internal, d.external])
      ensures (net.Store(), r) == AllocateInterface(old(net.Store()), ns, intf, d, table)
    {
      var viface := net.CreateVirtualInterfaceInNamespace(intf.name, VethConfig, ns, d);
      if viface.Err? {
        return Err(viface.error);
      }
      if !viface.value.kind.VETH? {
        return Err(MalformedDescriptor);
      }
      var pair := viface.value.kind.pair;
      var cpUuid: Option<Uuid> := None;
      if intf.cpId.Some? {
        if intf.cpId.value !in table {
          return Err(NotFound);
        }
        var cp := table[intf.cpId.value];
        var bound := net.BindInterfaceToConnectionPoint(pair, cp.uuid);
        if bound.Err? {
          return Err(bound.error);
        }
        cpUuid := Some(cp.uuid);
      } else {
        var moved := net.MoveInterfaceIntoDefaultNamespace(pair);
        if moved.Err? {
          return Err(moved.error);
        }
      }
      r := Ok(FDURecordInterface(intf.name, intf.kind, intf.macAddress, E1000, cpUuid, viface.value.uuid));
    }

    /** HashMap::into_iter: the entries in whatever order the map yields them. */
    method IntoEntries(table: CpTable) returns (entries: seq<FDURecordConnectionPoint>, ghost order: seq<string>)
      ensures IterationOf(order, table.Keys)
      ensures entries == TableEntries(table, order)
    {
      entries, order := [], [];
      var rest := table.Keys;
      while rest != {}
        invariant rest <= table.Keys && NoDup(order)
        invariant (set x | x in order) == table.Keys - rest
        invariant forall x | x in order :: x in table && x !in rest
        invariant entries == TableEntries(table, order)
        decreases rest
      {
        var id :| id in rest;
        EntriesAppend(table, order, id);
        assert (set x | x in order + [id]) == (set x | x in order) + {id};
        entries, order, rest := entries + [table[id]], order + [id], rest - {id};
      }
    }
  }
}
