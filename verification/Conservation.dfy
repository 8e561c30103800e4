/** What configuring and cleaning do to a node's network store: allocation is framed and exact,
    release undoes it, and every lifecycle step conserves resources. */
module Conservation {
  import opened Model
  import opened Network
  import opened Hypervisor

  /** m' agrees with m wherever m is defined. */
  ghost predicate Extends<K, V>(m: map<K, V>, m': map<K, V>) {
    forall k | k in m :: k in m' && m'[k] == m[k]
  }

  /** Whatever was stored before is unchanged: the store only grew. */
  ghost predicate Grown(s: Net, t: Net) {
    && Extends(s.namespaces, t.namespaces)
    && Extends(s.interfaces, t.interfaces)
    && Extends(s.connectionPoints, t.connectionPoints)
  }

  // ---------------------------------------------------------------- connection points

  /** A table of created connection points: entries carry their own id, distinct stored UUIDs. */
  ghost predicate GoodTable(net: Net, table: CpTable) {
    && (forall id | id in table :: table[id].id == id && table[id].uuid in net.connectionPoints)
    && (forall a, b | a in table && b in table && a != b :: table[a].uuid != table[b].uuid)
  }

  ghost function TableUuids(table: CpTable): set<Uuid> {
    set id | id in table :: table[id].uuid
  }

  lemma TableGrows(net: Net, table: CpTable, id: string, d: CpDraw)
    requires GoodTable(net, table) && d.cp !in net.connectionPoints
    ensures var (t, table') := (CreateConnectionPoint(net, d).0, table[id := FDURecordConnectionPoint(d.cp, id)]);
      && GoodTable(t, table')
      && TableUuids(table') <= TableUuids(table) + {d.cp}
      && (id !in table ==> TableUuids(table') == TableUuids(table) + {d.cp})
  {
    var table' := table[id := FDURecordConnectionPoint(d.cp, id)];
    assert table'[id].uuid == d.cp;
    if id !in table {
      forall a | a in table ensures table[a].uuid in TableUuids(table') {
        assert table'[a] == table[a];
      }
    }
  }

  /** The loop over connection points always succeeds on fresh draws, and stores exactly the
      drawn ones; only ids that are unique put all of them into the table. */
  lemma {:induction false} CpsEffect(net: Net, cps: seq<ConnectionPointDescriptor>, draws: seq<CpDraw>, table: CpTable,
                                     issued: set<Uuid>)
    requires |cps| == |draws| && FreshCps(draws, issued)
    requires net.connectionPoints.Keys <= issued && GoodTable(net, table)
    ensures var (t, r) := AllocateCps(net, cps, draws, table);
      && r.Ok? && GoodTable(t, r.value)
      && t == net.(connectionPoints := t.connectionPoints)
      && t.connectionPoints.Keys == net.connectionPoints.Keys + CpKeys(draws)
      && Extends(net.connectionPoints, t.connectionPoints)
    decreases |cps|
  {
    if cps != [] {
      var d := draws[0];
      assert d.cp in CpDrawIds(d);
      TableGrows(net, table, cps[0].id, d);
      var net1 := CreateConnectionPoint(net, d).0;
      var table1 := table[cps[0].id := FDURecordConnectionPoint(d.cp, cps[0].id)];
      var more := Issue(issued, CpDrawIds(d));
      CpsEffect(net1, cps[1..], draws[1..], table1, more);
      assert AllocateCps(net, cps, draws, table) == AllocateCps(net1, cps[1..], draws[1..], table1);
    }
  }

  lemma {:induction false} CpsTable(net: Net, cps: seq<ConnectionPointDescriptor>, draws: seq<CpDraw>, table: CpTable,
                                    issued: set<Uuid>)
    requires |cps| == |draws| && FreshCps(draws, issued)
    requires net.connectionPoints.Keys <= issued && GoodTable(net, table)
    ensures var r := AllocateCps(net, cps, draws, table).1;
      && r.Ok?
      && TableUuids(r.value) <= TableUuids(table) + CpKeys(draws)
      && (UniqueCpIds(cps) && table.Keys !! CpIds(cps) ==> TableUuids(r.value) == TableUuids(table) + CpKeys(draws))
    decreases |cps|
  {
    if cps != [] {
      var d := draws[0];
      assert d.cp in CpDrawIds(d);
      TableGrows(net, table, cps[0].id, d);
      var net1 := CreateConnectionPoint(net, d).0;
      var table1 := table[cps[0].id := FDURecordConnectionPoint(d.cp, cps[0].id)];
      CpsTable(net1, cps[1..], draws[1..], table1, Issue(issued, CpDrawIds(d)));
      assert AllocateCps(net, cps, draws, table) == AllocateCps(net1, cps[1..], draws[1..], table1);
    }
  }

  // ---------------------------------------------------------------- interfaces

  /** Only the instance's own namespace changed, and interfaces were only added. */
  ghost predicate InterfacesGrown(s: Net, t: Net, ns: Uuid) {
    && t.connectionPoints == s.connectionPoints
    && t.namespaces.Keys == s.namespaces.Keys
    && ns in t.namespaces && t.namespaces[ns].uuid == ns
    && (forall n | n in s.namespaces && n != ns :: t.namespaces[n] == s.namespaces[n])
    && Extends(s.interfaces, t.interfaces)
  }

  /** A record interface realises a descriptor interface: a VETH whose inner end is in the
      instance's namespace and whose outer end is in the private namespace of the connection point
      that cp_id names, or in the default namespace when there is none. */
  ghost predicate Realises(t: Net, ns: Uuid, intf: Interface, table: CpTable, rec: FDURecordInterface) {
    && rec.name == intf.name && rec.kind == intf.kind && rec.macAddress == intf.macAddress && rec.vifKind == E1000
    && rec.intfUuid in t.interfaces && t.interfaces[rec.intfUuid].kind.VETH?
    && t.interfaces[rec.intfUuid].ifName == intf.name
    && t.interfaces[rec.intfUuid].netNs == Some(ns)
    && var outer := t.interfaces[rec.intfUuid].kind.pair;
    && outer in t.interfaces
    && match intf.cpId
       case None => rec.cpUuid == None && t.interfaces[outer].netNs == None
       case Some(id) =>
         && id in table && table[id].uuid in t.connectionPoints
         && rec.cpUuid == Some(table[id].uuid)
         && t.interfaces[outer].netNs == Some(t.connectionPoints[table[id].uuid].netNs)
  }

  lemma InterfaceEffect(net: Net, ns: Uuid, intf: Interface, d: VethDraw, table: CpTable)
    requires ns in net.namespaces && net.namespaces[ns].uuid == ns && GoodTable(net, table)
    requires d.internal != d.external && d.internal !in net.interfaces && d.external !in net.interfaces
    ensures var (t, r) := AllocateInterface(net, ns, intf, d, table);
      && InterfacesGrown(net, t, ns)
      && t.interfaces.Keys == net.interfaces.Keys + {d.internal, d.external}
      && t.interfaces[d.internal].kind == VETH(d.external, true)
      && t.interfaces[d.external].kind == VETH(d.internal, false)
      && (r.Ok? <==> (intf.cpId.Some? ==> intf.cpId.value in table))
      && (r.Ok? ==> r.value.intfUuid == d.internal && Realises(t, ns, intf, table, r.value))
      && (r.Err? ==> r.error == NotFound)
  {
    var net1 := CreateVirtualInterfaceInNamespace(net, intf.name, VethConfig, ns, d).0;
    var list := net.namespaces[ns].interfaces + [d.internal, d.external];
    assert list[|net.namespaces[ns].interfaces| + 1] == d.external;
    assert net1.namespaces[ns].interfaces == list;
    assert net1.interfaces[d.external].netNs == Some(ns);
  }

  ghost predicate CanAllocate(net: Net, ns: Uuid, intfs: seq<Interface>, draws: seq<VethDraw>, table: CpTable,
                              issued: set<Uuid>) {
    && |intfs| == |draws| && FreshVeths(draws, issued) && net.interfaces.Keys <= issued
    && ns in net.namespaces && net.namespaces[ns].uuid == ns && GoodTable(net, table)
  }

  lemma TableKept(s: Net, t: Net, table: CpTable)
    requires GoodTable(s, table) && t.connectionPoints == s.connectionPoints
    ensures GoodTable(t, table)
  {
  }

  /** One turn of the loop leads to a store on which the rest of the loop can run. */
  lemma AllocateTurn(net: Net, ns: Uuid, intfs: seq<Interface>, draws: seq<VethDraw>, table: CpTable, issued: set<Uuid>)
    returns (net1: Net, first: Result<FDURecordInterface>, more: set<Uuid>)
    requires CanAllocate(net, ns, intfs, draws, table, issued) && intfs != []
    ensures InterfacesGrown(net, net1, ns)
    ensures more == issued + {draws[0].internal, draws[0].external}
    ensures CanAllocate(net1, ns, intfs[1..], draws[1..], table, more)
    ensures net1.interfaces.Keys == net.interfaces.Keys + {draws[0].internal, draws[0].external}
    ensures net1.interfaces[draws[0].internal].kind == VETH(draws[0].external, true)
    ensures net1.interfaces[draws[0].external].kind == VETH(draws[0].internal, false)
    ensures first.Ok? <==> (intfs[0].cpId.Some? ==> intfs[0].cpId.value in table)
    ensures first.Ok? ==> first.value.intfUuid == draws[0].internal && Realises(net1, ns, intfs[0], table, first.value)
    ensures first.Err? ==> AllocateInterfaces(net, ns, intfs, draws, table) == (net1, Err(NotFound))
    ensures first.Ok? ==>
      var (t, rest) := AllocateInterfaces(net1, ns, intfs[1..], draws[1..], table);
      AllocateInterfaces(net, ns, intfs, draws, table)
        == (t, if rest.Err? then rest else Ok([first.value] + rest.value))
  {
    InterfaceEffect(net, ns, intfs[0], draws[0], table);
    var p := AllocateInterface(net, ns, intfs[0], draws[0], table);
    net1, first, more := p.0, p.1, issued + {draws[0].internal, draws[0].external};
    TableKept(net, net1, table);
  }

  /** Frame: whatever the outcome, the interface loop leaves earlier resources alone. */
  lemma {:induction false} InterfacesFramed(net: Net, ns: Uuid, intfs: seq<Interface>, draws: seq<VethDraw>,
                                            table: CpTable, issued: set<Uuid>)
    requires CanAllocate(net, ns, intfs, draws, table, issued)
    ensures InterfacesGrown(net, AllocateInterfaces(net, ns, intfs, draws, table).0, ns)
    decreases |intfs|
  {
    if intfs != [] {
      var net1, first, more := AllocateTurn(net, ns, intfs, draws, table, issued);
      InterfacesFramed(net1, ns, intfs[1..], draws[1..], table, more);
    }
  }

  /** The interface loop succeeds exactly when every cp_id is in the table. */
  lemma {:induction false} InterfacesOutcome(net: Net, ns: Uuid, intfs: seq<Interface>, draws: seq<VethDraw>,
                                             table: CpTable, issued: set<Uuid>)
    requires CanAllocate(net, ns, intfs, draws, table, issued)
    ensures var r := AllocateInterfaces(net, ns, intfs, draws, table).1;
      (r.Ok? <==> Resolved(intfs, table.Keys)) && (r.Err? ==> r.error == NotFound)
    decreases |intfs|
  {
    if intfs != [] {
      var net1, first, more := AllocateTurn(net, ns, intfs, draws, table, issued);
      InterfacesOutcome(net1, ns, intfs[1..], draws[1..], table, more);
      ResolvedCons(intfs, table.Keys);
    }
  }

  lemma ResolvedCons(intfs: seq<Interface>, ids: set<string>)
    requires intfs != []
    ensures Resolved(intfs, ids) <==> Resolved(intfs[1..], ids) && (intfs[0].cpId.Some? ==> intfs[0].cpId.value in ids)
  {
    assert intfs == [intfs[0]] + intfs[1..];
  }

  ghost predicate AllRealised(t: Net, ns: Uuid, intfs: seq<Interface>, table: CpTable, recs: seq<FDURecordInterface>) {
    |recs| == |intfs| && forall k | 0 <= k < |intfs| :: Realises(t, ns, intfs[k], table, recs[k])
  }

  /** On success the record lists one realised interface for each descriptor interface, in order. */
  lemma {:induction false} InterfacesRealised(net: Net, ns: Uuid, intfs: seq<Interface>, draws: seq<VethDraw>,
                                              table: CpTable, issued: set<Uuid>)
    requires CanAllocate(net, ns, intfs, draws, table, issued) && Resolved(intfs, table.Keys)
    ensures var (t, r) := AllocateInterfaces(net, ns, intfs, draws, table);
      r.Ok? && AllRealised(t, ns, intfs, table, r.value)
    decreases |intfs|
  {
    if intfs != [] {
      var net1, first, more := AllocateTurn(net, ns, intfs, draws, table, issued);
      assert intfs[0] in intfs;
      InterfacesRealised(net1, ns, intfs[1..], draws[1..], table, more);
      InterfacesFramed(net1, ns, intfs[1..], draws[1..], table, more);
      var (t, rest) := AllocateInterfaces(net1, ns, intfs[1..], draws[1..], table);
      AllRealisedCons(net1, t, ns, intfs, table, first.value, rest.value);
    }
  }

  lemma AllRealisedCons(s: Net, t: Net, ns: Uuid, intfs: seq<Interface>, table: CpTable, first: FDURecordInterface,
                        rest: seq<FDURecordInterface>)
    requires intfs != [] && Realises(s, ns, intfs[0], table, first) && InterfacesGrown(s, t, ns)
    requires AllRealised(t, ns, intfs[1..], table, rest)
    ensures AllRealised(t, ns, intfs, table, [first] + rest)
  {
    RealisedKept(s, t, ns, intfs[0], table, first);
    forall k | 0 <= k < |intfs| ensures Realises(t, ns, intfs[k], table, ([first] + rest)[k]) {
      if k > 0 { assert Realises(t, ns, intfs[1..][k - 1], table, rest[k - 1]); }
    }
  }

  lemma RealisedKept(s: Net, t: Net, ns: Uuid, intf: Interface, table: CpTable, rec: FDURecordInterface)
    requires Realises(s, ns, intf, table, rec) && InterfacesGrown(s, t, ns)
    ensures Realises(t, ns, intf, table, rec)
  {
  }

  /** Whatever the outcome only drawn interfaces were added, and on success all of them. */
  lemma {:induction false} InterfacesStored(net: Net, ns: Uuid, intfs: seq<Interface>, draws: seq<VethDraw>,
                                            table: CpTable, issued: set<Uuid>)
    requires CanAllocate(net, ns, intfs, draws, table, issued)
    ensures var (t, r) := AllocateInterfaces(net, ns, intfs, draws, table);
      && t.interfaces.Keys <= net.interfaces.Keys + VethKeys(draws)
      && (r.Ok? ==> t.interfaces.Keys == net.interfaces.Keys + VethKeys(draws))
    decreases |intfs|
  {
    if intfs != [] {
      var net1, first, more := AllocateTurn(net, ns, intfs, draws, table, issued);
      InterfacesStored(net1, ns, intfs[1..], draws[1..], table, more);
    }
  }

  /** On success the record accounts for exactly the interfaces that were created. */
  lemma {:induction false} InterfacesOwned(net: Net, ns: Uuid, intfs: seq<Interface>, draws: seq<VethDraw>,
                                           table: CpTable, issued: set<Uuid>)
    requires CanAllocate(net, ns, intfs, draws, table, issued)
    ensures var (t, r) := AllocateInterfaces(net, ns, intfs, draws, table);
      r.Ok? ==> IfsReady(t, r.value) && IfOwned(t, r.value) == VethKeys(draws)
    decreases |intfs|
  {
    if intfs != [] {
      var net1, first, more := AllocateTurn(net, ns, intfs, draws, table, issued);
      InterfacesOwned(net1, ns, intfs[1..], draws[1..], table, more);
      InterfacesFramed(net1, ns, intfs[1..], draws[1..], table, more);
      FreshVethKeys(draws[1..], more);
      var (t, rest) := AllocateInterfaces(net1, ns, intfs[1..], draws[1..], table);
      if first.Ok? && rest.Ok? {
        ReadyPrepended(net1, t, draws[0], first.value, rest.value);
      }
    }
  }

  lemma ReadyPrepended(s: Net, t: Net, d: VethDraw, first: FDURecordInterface, rest: seq<FDURecordInterface>)
    requires Extends(s.interfaces, t.interfaces) && {d.internal, d.external} <= s.interfaces.Keys
    requires d.internal != d.external
    requires s.interfaces[d.internal].kind == VETH(d.external, true)
    requires s.interfaces[d.external].kind == VETH(d.internal, false)
    requires first.intfUuid == d.internal && IfsReady(t, rest) && {d.internal, d.external} !! IfOwned(t, rest)
    ensures IfsReady(t, [first] + rest)
    ensures IfOwned(t, [first] + rest) == {d.internal, d.external} + IfOwned(t, rest)
  {
    var all := [first] + rest;
    assert all[0] == first && all[1..] == rest;
    assert PairedAt(t, d.internal) && PairOf(t, d.internal) == d.external;
  }

  // ---------------------------------------------------------------- locality of ownership

  lemma {:induction false} OwnedStored(s: Net, intfs: seq<FDURecordInterface>)
    requires IfsReady(s, intfs)
    ensures IfOwned(s, intfs) <= s.interfaces.Keys
  {
    if intfs != [] {
      assert PairedAt(s, intfs[0].intfUuid);
      OwnedStored(s, intfs[1..]);
    }
  }

  /** Readiness and ownership of a record depend only on the interfaces it owns. */
  lemma {:induction false} ReadyElsewhere(s: Net, t: Net, intfs: seq<FDURecordInterface>)
    requires IfsReady(s, intfs)
    requires forall u | u in IfOwned(s, intfs) && u in s.interfaces ::
        u in t.interfaces && t.interfaces[u] == s.interfaces[u]
    ensures IfsReady(t, intfs) && IfOwned(t, intfs) == IfOwned(s, intfs)
  {
    if intfs != [] {
      ReadyElsewhere(s, t, intfs[1..]);
      assert PairedAt(s, intfs[0].intfUuid);
      assert intfs[0].intfUuid in IfOwned(s, intfs) && PairOf(s, intfs[0].intfUuid) in IfOwned(s, intfs);
      assert PairedAt(t, intfs[0].intfUuid);
    }
  }

  lemma {:induction false} CpsReadyElsewhere(s: Net, t: Net, cps: seq<FDURecordConnectionPoint>)
    requires CpsReady(s, cps) && CpOwned(cps) <= t.connectionPoints.Keys
    ensures CpsReady(t, cps)
  {
    if cps != [] { CpsReadyElsewhere(s, t, cps[1..]); }
  }

  lemma {:induction false} CpsOwnedStored(s: Net, cps: seq<FDURecordConnectionPoint>)
    requires CpsReady(s, cps)
    ensures CpOwned(cps) <= s.connectionPoints.Keys
  {
    if cps != [] { CpsOwnedStored(s, cps[1..]); }
  }

  // ---------------------------------------------------------------- release

  lemma {:induction false} ReleaseInterfacesEffect(net: Net, intfs: seq<FDURecordInterface>)
    requires IfsReady(net, intfs)
    ensures ReleaseInterfaces(net, intfs) == (net.(interfaces := net.interfaces - IfOwned(net, intfs)), Ok(()))
    decreases |intfs|
  {
    if intfs == [] {
      assert net.interfaces - {} == net.interfaces;
    } else {
      var u := intfs[0].intfUuid;
      var p := PairOf(net, u);
      assert PairedAt(net, u);
      var net1 := DeleteVirtualInterface(net, u).0;
      assert net1.interfaces == net.interfaces - {u, p};
      OwnedStored(net, intfs[1..]);
      ReadyElsewhere(net, net1, intfs[1..]);
      ReleaseInterfacesEffect(net1, intfs[1..]);
      assert net.interfaces - {u, p} - IfOwned(net, intfs[1..]) == net.interfaces - IfOwned(net, intfs);
    }
  }

  lemma {:induction false} ReleaseCpsEffect(net: Net, cps: seq<FDURecordConnectionPoint>)
    requires CpsReady(net, cps)
    ensures ReleaseCps(net, cps) == (net.(connectionPoints := net.connectionPoints - CpOwned(cps)), Ok(()))
    decreases |cps|
  {
    if cps == [] {
      assert net.connectionPoints - {} == net.connectionPoints;
    } else {
      var u := cps[0].uuid;
      var net1 := DeleteConnectionPoint(net, u).0;
      CpsOwnedStored(net, cps[1..]);
      CpsReadyElsewhere(net, net1, cps[1..]);
      ReleaseCpsEffect(net1, cps[1..]);
      assert net.connectionPoints - {u} - CpOwned(cps[1..]) == net.connectionPoints - CpOwned(cps);
    }
  }

  /** The network store without what a record owns. */
  ghost function Without(net: Net, rec: FDURecord): Net
    requires rec.hypervisorSpecific.Some?
  {
    Net(net.namespaces - {rec.hypervisorSpecific.value},
        net.interfaces - IfOwned(net, rec.interfaces),
        net.connectionPoints - CpOwned(rec.connectionPoints))
  }

  /** Cleaning a configured instance whose resources are stored never fails, and removes
      exactly what the record owns. */
  lemma CleanEffect(n: Node, i: Uuid)
    requires i in n.local && n.local[i].status == CONFIGURED && Ready(n.net, n.local[i])
    ensures Clean(n, i) == (Put(n.(net := Without(n.net, n.local[i])), Cleaned(n.local[i])), Ok(i))
  {
    var rec := n.local[i];
    var net1 := DeleteNamespace(n.net, rec.hypervisorSpecific.value).0;
    OwnedStored(n.net, rec.interfaces);
    ReadyElsewhere(n.net, net1, rec.interfaces);
    ReleaseInterfacesEffect(net1, rec.interfaces);
    var net2 := ReleaseInterfaces(net1, rec.interfaces).0;
    CpsOwnedStored(n.net, rec.connectionPoints);
    CpsReadyElsewhere(n.net, net2, rec.connectionPoints);
    ReleaseCpsEffect(net2, rec.connectionPoints);
  }

  // ---------------------------------------------------------------- configure

  lemma {:induction false} EntriesOwned(net: Net, table: CpTable, order: seq<string>)
    requires GoodTable(net, table) && NoDup(order) && forall id | id in order :: id in table
    ensures CpsReady(net, TableEntries(table, order))
    ensures CpOwned(TableEntries(table, order)) == set id | id in order :: table[id].uuid
  {
    if order != [] {
      var rest := order[1..];
      assert order == [order[0]] + rest;
      assert NoDup(rest) && order[0] !in rest;
      EntriesOwned(net, table, rest);
      assert TableEntries(table, order)[1..] == TableEntries(table, rest);
      OrderOwns(table, order);
    }
  }

  lemma OrderOwns(table: CpTable, order: seq<string>)
    requires order != [] && forall id | id in order :: id in table
    ensures (set id | id in order :: table[id].uuid)
         == {table[order[0]].uuid} + set id | id in order[1..] :: table[id].uuid
  {
    assert order == [order[0]] + order[1..];
  }

  /** The instance can be configured on this node and the draws are fresh. */
  ghost predicate CanConfigure(n: Node, catalog: map<Uuid, FDUDescriptor>, i: Uuid, d: ConfigureDraws,
                               issued: set<Uuid>) {
    && i in n.local && n.local[i].status == DEFINED && n.local[i].uuid == i
    && n.local[i].fduUuid in catalog
    && DrawsUsable(n, catalog[n.local[i].fduUuid], d, issued)
  }

  /** The store after the loop over connection points. */
  ghost predicate StagedStore(n: Node, d: ConfigureDraws, issued: set<Uuid>, net2: Net) {
    && d.ns !in n.net.namespaces
    && net2 == Net(n.net.namespaces[d.ns := NetworkNamespace(d.ns, [])], n.net.interfaces, net2.connectionPoints)
    && Extends(n.net.connectionPoints, net2.connectionPoints)
    && net2.connectionPoints.Keys == n.net.connectionPoints.Keys + CpKeys(d.cps)
    && CpKeys(d.cps) !! issued && VethKeys(d.veths) !! issued
  }

  /** The table after the loop over connection points. */
  ghost predicate StagedTable(desc: FDUDescriptor, d: ConfigureDraws, net2: Net, table: CpTable) {
    && GoodTable(net2, table)
    && table.Keys == CpIds(desc.connectionPoints)
    && TableUuids(table) <= CpKeys(d.cps)
    && (UniqueCpIds(desc.connectionPoints) ==> TableUuids(table) == CpKeys(d.cps))
    && (forall id | id in d.order :: id in table)
  }

  ghost predicate Staged(n: Node, desc: FDUDescriptor, d: ConfigureDraws, issued: set<Uuid>, net2: Net, table: CpTable,
                         more: set<Uuid>) {
    && CanAllocate(net2, d.ns, desc.interfaces, d.veths, table, more)
    && StagedStore(n, d, issued, net2)
    && StagedTable(desc, d, net2, table)
  }

  ghost predicate DrawsUsable(n: Node, desc: FDUDescriptor, d: ConfigureDraws, issued: set<Uuid>) {
    && DrawsFit(desc, d) && FreshDraws(d, issued)
    && n.net.namespaces.Keys <= issued && n.net.interfaces.Keys <= issued && n.net.connectionPoints.Keys <= issued
  }

  lemma StageStore(n: Node, desc: FDUDescriptor, d: ConfigureDraws, issued: set<Uuid>)
    requires DrawsUsable(n, desc, d, issued)
    ensures StagedStore(n, d, issued,
                        AllocateCps(CreateNamespace(n.net, d.ns).0, desc.connectionPoints, d.cps, map[]).0)
  {
    var net1 := CreateNamespace(n.net, d.ns).0;
    CpsEffect(net1, desc.connectionPoints, d.cps, map[], issued + {d.ns});
    FreshCpKeys(d.cps, issued + {d.ns});
    FreshVethKeys(d.veths, IssueCps(issued + {d.ns}, d.cps));
  }

  lemma StageTable(n: Node, desc: FDUDescriptor, d: ConfigureDraws, issued: set<Uuid>)
    requires DrawsUsable(n, desc, d, issued)
    ensures var (net2, table) := AllocateCps(CreateNamespace(n.net, d.ns).0, desc.connectionPoints, d.cps, map[]);
      table.Ok? && StagedTable(desc, d, net2, table.value)
  {
    var net1 := CreateNamespace(n.net, d.ns).0;
    CpsEffect(net1, desc.connectionPoints, d.cps, map[], issued + {d.ns});
    CpsTable(net1, desc.connectionPoints, d.cps, map[], issued + {d.ns});
    assert TableUuids(map[]) == {};
    forall id | id in d.order ensures id in CpIds(desc.connectionPoints) {
      assert id in (set x | x in d.order);
    }
  }

  lemma StagesReached(n: Node, desc: FDUDescriptor, d: ConfigureDraws, issued: set<Uuid>)
    returns (net2: Net, table: CpTable, more: set<Uuid>)
    requires DrawsUsable(n, desc, d, issued)
    ensures Staged(n, desc, d, issued, net2, table, more)
    ensures AllocateCps(CreateNamespace(n.net, d.ns).0, desc.connectionPoints, d.cps, map[]) == (net2, Ok(table))
  {
    StageStore(n, desc, d, issued);
    StageTable(n, desc, d, issued);
    FreshCpKeys(d.cps, issued + {d.ns});
    var p := AllocateCps(CreateNamespace(n.net, d.ns).0, desc.connectionPoints, d.cps, map[]);
    net2, table, more := p.0, p.1.value, IssueCps(issued + {d.ns}, d.cps);
  }

  /** configure_fdu as its two loops, when the instance can be configured. */
  lemma ConfigureStages(n: Node, catalog: map<Uuid, FDUDescriptor>, i: Uuid, d: ConfigureDraws, issued: set<Uuid>)
    returns (net2: Net, table: CpTable, more: set<Uuid>)
    requires CanConfigure(n, catalog, i, d, issued)
    ensures Staged(n, catalog[n.local[i].fduUuid], d, issued, net2, table, more)
    ensures var (net3, intfs) := AllocateInterfaces(net2, d.ns, catalog[n.local[i].fduUuid].interfaces, d.veths, table);
      Configure(n, catalog, i, d) ==
        if intfs.Err? then (n.(net := net3), Err(intfs.error))
        else (Put(n.(net := net3), Configured(n.local[i], d, table, intfs.value)), Ok(i))
  {
    net2, table, more := StagesReached(n, catalog[n.local[i].fduUuid], d, issued);
  }

  /** Configuring, for any descriptor: what was stored before is unchanged; it succeeds exactly
      when every cp_id names a connection point of the descriptor; and when it fails, the record,
      the cache and the FIFO are unchanged. */
  lemma ConfigureFramed(n: Node, catalog: map<Uuid, FDUDescriptor>, i: Uuid, d: ConfigureDraws, issued: set<Uuid>)
    requires CanConfigure(n, catalog, i, d, issued)
    ensures var (m, r) := Configure(n, catalog, i, d);
      var desc := catalog[n.local[i].fduUuid];
      && Grown(n.net, m.net)
      && (r.Ok? <==> Resolved(desc.interfaces, CpIds(desc.connectionPoints)))
      && (r.Err? ==> r.error == NotFound && m == n.(net := m.net))
  {
    var desc := catalog[n.local[i].fduUuid];
    var net2, table, more := ConfigureStages(n, catalog, i, d, issued);
    InterfacesFramed(net2, d.ns, desc.interfaces, d.veths, table, more);
    InterfacesOutcome(net2, d.ns, desc.interfaces, d.veths, table, more);
  }

  /** Whatever the outcome, configuring stores only what it drew. */
  lemma ConfigureIssues(n: Node, catalog: map<Uuid, FDUDescriptor>, i: Uuid, d: ConfigureDraws, issued: set<Uuid>)
    requires CanConfigure(n, catalog, i, d, issued)
    ensures var m := Configure(n, catalog, i, d).0.net;
      && m.namespaces.Keys <= n.net.namespaces.Keys + {d.ns}
      && m.interfaces.Keys <= n.net.interfaces.Keys + VethKeys(d.veths)
      && m.connectionPoints.Keys <= n.net.connectionPoints.Keys + CpKeys(d.cps)
  {
    var desc := catalog[n.local[i].fduUuid];
    var net2, table, more := ConfigureStages(n, catalog, i, d, issued);
    InterfacesFramed(net2, d.ns, desc.interfaces, d.veths, table, more);
    InterfacesStored(net2, d.ns, desc.interfaces, d.veths, table, more);
  }

  /** What a successful configure leaves in the stores. */
  ghost predicate ConfiguredTo(n: Node, m: Node, i: Uuid, desc: FDUDescriptor, d: ConfigureDraws)
    requires i in n.local && i in m.local
  {
    var rec := m.local[i];
    && m == Put(n.(net := m.net), rec)
    && rec == n.local[i].(interfaces := rec.interfaces, connectionPoints := rec.connectionPoints,
                          status := CONFIGURED, hypervisorSpecific := Some(d.ns))
    && Ready(m.net, rec) && Grown(n.net, m.net)
    && d.ns !in n.net.namespaces && m.net.namespaces.Keys == n.net.namespaces.Keys + {d.ns}
    && IfOwned(m.net, rec.interfaces) !! n.net.interfaces.Keys
    && m.net.interfaces.Keys == n.net.interfaces.Keys + IfOwned(m.net, rec.interfaces)
    && CpOwned(rec.connectionPoints) <= CpKeys(d.cps) && CpKeys(d.cps) !! n.net.connectionPoints.Keys
    && m.net.connectionPoints.Keys == n.net.connectionPoints.Keys + CpKeys(d.cps)
  }

  /** The two loops' results put together as the record and store of a configured instance. */
  lemma StagesEffect(n: Node, i: Uuid, desc: FDUDescriptor, d: ConfigureDraws, issued: set<Uuid>,
                     net2: Net, table: CpTable, net3: Net, intfs: seq<FDURecordInterface>)
    requires i in n.local && n.local[i].uuid == i
    requires StagedStore(n, d, issued, net2) && StagedTable(desc, d, net2, table) && DrawsFit(desc, d)
    requires n.net.interfaces.Keys <= issued && n.net.connectionPoints.Keys <= issued
    requires InterfacesGrown(net2, net3, d.ns) && net3.interfaces.Keys == net2.interfaces.Keys + VethKeys(d.veths)
    requires IfsReady(net3, intfs) && IfOwned(net3, intfs) == VethKeys(d.veths)
    ensures var m := Put(n.(net := net3), Configured(n.local[i], d, table, intfs));
      && ConfiguredTo(n, m, i, desc, d)
      && CpOwned(m.local[i].connectionPoints) == TableUuids(table)
  {
    EntriesUsed(n, desc, d, net2, table, net3);
  }

  lemma EntriesUsed(n: Node, desc: FDUDescriptor, d: ConfigureDraws, net2: Net, table: CpTable, net3: Net)
    requires StagedTable(desc, d, net2, table) && DrawsFit(desc, d) && net3.connectionPoints == net2.connectionPoints
    ensures CpsReady(net3, TableEntries(table, d.order)) && CpOwned(TableEntries(table, d.order)) == TableUuids(table)
  {
    var cps := TableEntries(table, d.order);
    EntriesOwned(net2, table, d.order);
    CpsOwnedStored(net2, cps);
    CpsReadyElsewhere(net2, net3, cps);
    assert table.Keys == (set x | x in d.order);
    assert forall id | id in table :: id in d.order;
  }

  lemma ConfigureEffect(n: Node, catalog: map<Uuid, FDUDescriptor>, i: Uuid, d: ConfigureDraws, issued: set<Uuid>)
    requires CanConfigure(n, catalog, i, d, issued)
    requires Configure(n, catalog, i, d).1.Ok?
    ensures var (m, r) := Configure(n, catalog, i, d);
      var desc := catalog[n.local[i].fduUuid];
      && i in m.local && ConfiguredTo(n, m, i, desc, d)
      && (UniqueCpIds(desc.connectionPoints) ==> CpOwned(m.local[i].connectionPoints) == CpKeys(d.cps))
  {
    var desc := catalog[n.local[i].fduUuid];
    var net2, table, more := ConfigureStages(n, catalog, i, d, issued);
    InterfacesFramed(net2, d.ns, desc.interfaces, d.veths, table, more);
    InterfacesStored(net2, d.ns, desc.interfaces, d.veths, table, more);
    InterfacesOwned(net2, d.ns, desc.interfaces, d.veths, table, more);
    var p := AllocateInterfaces(net2, d.ns, desc.interfaces, d.veths, table);
    StagesEffect(n, i, desc, d, issued, net2, table, p.0, p.1.value);
  }

  // ---------------------------------------------------------------- counting connection points

  lemma {:induction false} CpIdsCount(cps: seq<ConnectionPointDescriptor>)
    ensures |CpIds(cps)| <= |cps|
    ensures !UniqueCpIds(cps) ==> |CpIds(cps)| < |cps|
  {
    if cps != [] { CpIdsCount(cps[1..]); }
  }

  lemma {:induction false} OrderCount(order: seq<string>)
    requires NoDup(order)
    ensures |set id | id in order| == |order|
  {
    if order != [] {
      assert order == [order[0]] + order[1..];
      OrderCount(order[1..]);
      assert (set id | id in order) == {order[0]} + set id | id in order[1..];
      assert order[0] !in order[1..];
    }
  }

  lemma {:induction false} EntriesCount(table: CpTable, order: seq<string>)
    requires forall id | id in order :: id in table
    ensures |CpOwned(TableEntries(table, order))| <= |order|
  {
    if order != [] { EntriesCount(table, order[1..]); }
  }

  /** With a repeated connection-point id the entries are fewer than the created points. */
  lemma RepeatedIdsCount(desc: FDUDescriptor, d: ConfigureDraws, issued: set<Uuid>, net2: Net, table: CpTable)
    requires DrawsFit(desc, d) && FreshDraws(d, issued) && StagedTable(desc, d, net2, table)
    requires !UniqueCpIds(desc.connectionPoints)
    ensures CpOwned(TableEntries(table, d.order)) != CpKeys(d.cps)
  {
    CpIdsCount(desc.connectionPoints);
    OrderCount(d.order);
    EntriesCount(table, d.order);
    FreshCpKeys(d.cps, issued + {d.ns});
  }

  /** With a repeated connection-point id some created connection point is in no record. */
  lemma RepeatedIdsLeak(n: Node, catalog: map<Uuid, FDUDescriptor>, i: Uuid, d: ConfigureDraws, issued: set<Uuid>)
    requires CanConfigure(n, catalog, i, d, issued) && Configure(n, catalog, i, d).1.Ok?
    requires !UniqueCpIds(catalog[n.local[i].fduUuid].connectionPoints)
    ensures CpOwned(Configure(n, catalog, i, d).0.local[i].connectionPoints) != CpKeys(d.cps)
  {
    var net2, table, more := ConfigureStages(n, catalog, i, d, issued);
    RepeatedIdsCount(catalog[n.local[i].fduUuid], d, issued, net2, table);
  }

  // ---------------------------------------------------------------- configure and clean undo each other

  lemma CleanUndoesConfigure(n: Node, m: Node, i: Uuid, desc: FDUDescriptor, d: ConfigureDraws)
    requires i in n.local && i in m.local && n.local[i].uuid == i && ConfiguredTo(n, m, i, desc, d)
    ensures Clean(m, i) == (Put(m.(net := Without(m.net, m.local[i])), Cleaned(m.local[i])), Ok(i))
    ensures Without(m.net, m.local[i]).namespaces == n.net.namespaces
    ensures Without(m.net, m.local[i]).interfaces == n.net.interfaces
    ensures Without(m.net, m.local[i]).connectionPoints == n.net.connectionPoints
       <==> CpOwned(m.local[i].connectionPoints) == CpKeys(d.cps)
  {
    CleanEffect(m, i);
    var left := Without(m.net, m.local[i]).connectionPoints;
    if CpOwned(m.local[i].connectionPoints) != CpKeys(d.cps) {
      var u :| u in CpKeys(d.cps) && u !in CpOwned(m.local[i].connectionPoints);
      assert u in left && u !in n.net.connectionPoints;
    }
  }

  /** configure_fdu followed by clean_fdu gives back the network store exactly when the descriptor
      is well formed: unique connection-point ids, each cp_id naming one of them. */
  lemma ConfigureThenCleanRestoresIff(n: Node, catalog: map<Uuid, FDUDescriptor>, i: Uuid, d: ConfigureDraws,
                                      issued: set<Uuid>)
    requires CanConfigure(n, catalog, i, d, issued)
    ensures var (m, r) := Configure(n, catalog, i, d);
      (r.Ok? && Clean(m, i).1.Ok? && Clean(m, i).0.net == n.net) <==> WellFormedDescriptor(catalog[n.local[i].fduUuid])
  {
    var desc := catalog[n.local[i].fduUuid];
    ConfigureFramed(n, catalog, i, d, issued);
    var (m, r) := Configure(n, catalog, i, d);
    if r.Ok? {
      ConfigureEffect(n, catalog, i, d, issued);
      CleanUndoesConfigure(n, m, i, desc, d);
      if !UniqueCpIds(desc.connectionPoints) { RepeatedIdsLeak(n, catalog, i, d, issued); }
    }
  }

  /** ... and the record, except that hypervisor_specific stays set. */
  lemma ConfigureThenCleanRecord(n: Node, catalog: map<Uuid, FDUDescriptor>, i: Uuid, d: ConfigureDraws,
                                 issued: set<Uuid>)
    requires CanConfigure(n, catalog, i, d, issued) && Configure(n, catalog, i, d).1.Ok?
    requires n.local[i].interfaces == [] && n.local[i].connectionPoints == []
    ensures var m := Configure(n, catalog, i, d).0;
      var c := Clean(m, i).0;
      && i in m.local && c.local == n.local[i := n.local[i].(hypervisorSpecific := Some(d.ns))]
      && c.fifo == n.fifo + [m.local[i], c.local[i]]
  {
    ConfigureEffect(n, catalog, i, d, issued);
    RecordRestored(n, Configure(n, catalog, i, d).0, i, catalog[n.local[i].fduUuid], d);
  }

  lemma RecordRestored(n: Node, m: Node, i: Uuid, desc: FDUDescriptor, d: ConfigureDraws)
    requires i in n.local && i in m.local && n.local[i].uuid == i && ConfiguredTo(n, m, i, desc, d)
    requires n.local[i].interfaces == [] && n.local[i].connectionPoints == [] && n.local[i].status == DEFINED
    ensures var c := Clean(m, i).0;
      && c.local == n.local[i := n.local[i].(hypervisorSpecific := Some(d.ns))]
      && c.fifo == n.fifo + [m.local[i], c.local[i]]
  {
    CleanUndoesConfigure(n, m, i, desc, d);
    assert n.fifo + [m.local[i]] + [Cleaned(m.local[i])] == n.fifo + [m.local[i], Cleaned(m.local[i])];
  }

  /** In between, the record's connection points are one per id of the descriptor, its interfaces
      are the descriptor's in order, and each bound one carries the UUID of the connection point
      that its cp_id names. */
  lemma ConfiguredRecordRealises(n: Node, catalog: map<Uuid, FDUDescriptor>, i: Uuid, d: ConfigureDraws,
                                 issued: set<Uuid>)
    returns (table: CpTable)
    requires CanConfigure(n, catalog, i, d, issued) && Configure(n, catalog, i, d).1.Ok?
    ensures var (m, desc) := (Configure(n, catalog, i, d).0, catalog[n.local[i].fduUuid]);
      && i in m.local
      && table.Keys == CpIds(desc.connectionPoints)
      && (forall id | id in table :: table[id].id == id && table[id] in m.local[i].connectionPoints)
      && AllRealised(m.net, d.ns, desc.interfaces, table, m.local[i].interfaces)
  {
    var desc := catalog[n.local[i].fduUuid];
    var net2, t, more := ConfigureStages(n, catalog, i, d, issued);
    table := t;
    InterfacesOutcome(net2, d.ns, desc.interfaces, d.veths, table, more);
    InterfacesRealised(net2, d.ns, desc.interfaces, d.veths, table, more);
    forall id | id in table ensures table[id] in TableEntries(table, d.order) {
      assert id in (set x | x in d.order);
      EntryListed(table, d.order, id);
    }
  }

  lemma {:induction false} EntryListed(table: CpTable, order: seq<string>, id: string)
    requires (forall x | x in order :: x in table) && id in order
    ensures table[id] in TableEntries(table, order)
  {
    assert order == [order[0]] + order[1..];
    var rest := TableEntries(table, order[1..]);
    assert ([table[order[0]]] + rest)[0] == table[order[0]];
    if id != order[0] {
      EntryListed(table, order[1..], id);
      assert forall c | c in rest :: c in [table[order[0]]] + rest;
    }
  }

  // ---------------------------------------------------------------- conservation, step by step

  lemma PartAdded(keys: set<Uuid>, parts: map<Uuid, set<Uuid>>, i: Uuid, part: set<Uuid>)
    requires Partition(keys, parts) && i !in parts && part !! keys
    ensures Partition(keys + part, parts[i := part])
  {
    var parts' := parts[i := part];
    forall u | u in keys + part ensures exists j :: j in parts' && u in parts'[j] {
      if u in part {
        assert u in parts'[i];
      } else {
        var j :| j in parts && u in parts[j];
        assert u in parts'[j];
      }
    }
  }

  lemma PartDropped(keys: set<Uuid>, parts: map<Uuid, set<Uuid>>, i: Uuid)
    requires Partition(keys, parts) && i in parts
    ensures Partition(keys - parts[i], parts - {i})
  {
    var parts' := parts - {i};
    forall u | u in keys - parts[i] ensures exists j :: j in parts' && u in parts'[j] {
      var j :| j in parts && u in parts[j];
      assert u in parts'[j];
    }
  }

  /** Two instance stores whose active records own the same things. */
  ghost predicate SameOwners(local: map<Uuid, FDURecord>, local': map<Uuid, FDURecord>) {
    && (forall i :: i in local && Active(local[i]) <==> i in local' && Active(local'[i]))
    && (forall i | i in local && Active(local[i]) ::
          && local'[i].hypervisorSpecific == local[i].hypervisorSpecific
          && local'[i].interfaces == local[i].interfaces
          && local'[i].connectionPoints == local[i].connectionPoints)
  }

  lemma SameOwnersParts(net: Net, local: map<Uuid, FDURecord>, local': map<Uuid, FDURecord>)
    requires SameOwners(local, local')
    ensures NsParts(local) == NsParts(local')
    ensures IfParts(net, local) == IfParts(net, local')
    ensures CpParts(local) == CpParts(local')
  {
  }

  lemma SameOwnersReady(net: Net, local: map<Uuid, FDURecord>, local': map<Uuid, FDURecord>)
    requires SameOwners(local, local') && AllReady(net, local)
    ensures AllReady(net, local')
  {
    forall i | i in local' && Active(local'[i]) ensures Ready(net, local'[i]) {
      assert Ready(net, local[i]);
    }
  }

  /** Steps that add, drop or replace records without touching what is owned. */
  lemma ConservedSameOwners(net: Net, local: map<Uuid, FDURecord>, local': map<Uuid, FDURecord>)
    requires Conserved(net, local) && SameOwners(local, local')
    ensures Conserved(net, local')
  {
    SameOwnersParts(net, local, local');
    SameOwnersReady(net, local, local');
  }

  /** An active record keeps its readiness and its ownership in a store that agrees on what it owns. */
  lemma RecordKept(s: Net, t: Net, rec: FDURecord)
    requires Ready(s, rec) && rec.hypervisorSpecific.value in t.namespaces
    requires forall u | u in IfOwned(s, rec.interfaces) && u in s.interfaces ::
        u in t.interfaces && t.interfaces[u] == s.interfaces[u]
    requires CpOwned(rec.connectionPoints) <= t.connectionPoints.Keys
    ensures Ready(t, rec) && IfOwned(t, rec.interfaces) == IfOwned(s, rec.interfaces)
  {
    ReadyElsewhere(s, t, rec.interfaces);
    CpsReadyElsewhere(s, t, rec.connectionPoints);
  }

  lemma RecordOwnsStored(s: Net, rec: FDURecord)
    requires Ready(s, rec)
    ensures IfOwned(s, rec.interfaces) <= s.interfaces.Keys && CpOwned(rec.connectionPoints) <= s.connectionPoints.Keys
  {
    OwnedStored(s, rec.interfaces);
    CpsOwnedStored(s, rec.connectionPoints);
  }

  /** A step that touches the record and the resources of instance i only. */
  ghost predicate OthersKept(net: Net, local: map<Uuid, FDURecord>, net': Net, local': map<Uuid, FDURecord>, i: Uuid) {
    && (forall j | j != i :: j in local <==> j in local')
    && (forall j | j != i && j in local && j in local' :: local'[j] == local[j])
    && (forall j | j != i && j in local && Active(local[j]) :: OneKept(net, net', local[j]))
  }

  ghost predicate OneKept(net: Net, net': Net, rec: FDURecord) {
    Ready(net', rec) && IfOwned(net', rec.interfaces) == IfOwned(net, rec.interfaces)
  }

  /** parts' is parts except at i, where it is part. */
  ghost predicate Replaced(parts: map<Uuid, set<Uuid>>, parts': map<Uuid, set<Uuid>>, i: Uuid) {
    && (forall j | j != i :: j in parts <==> j in parts')
    && (forall j | j != i && j in parts && j in parts' :: parts'[j] == parts[j])
  }

  lemma OthersParts(net: Net, local: map<Uuid, FDURecord>, net': Net, local': map<Uuid, FDURecord>, i: Uuid)
    requires OthersKept(net, local, net', local', i)
    ensures Replaced(NsParts(local), NsParts(local'), i)
    ensures Replaced(CpParts(local), CpParts(local'), i)
    ensures Replaced(IfParts(net, local), IfParts(net', local'), i)
  {
    var parts, parts' := IfParts(net, local), IfParts(net', local');
    forall j | j != i && j in parts ensures j in parts' && parts'[j] == parts[j] {
      assert OneKept(net, net', local[j]);
    }
  }

  lemma OthersReady(net: Net, local: map<Uuid, FDURecord>, net': Net, local': map<Uuid, FDURecord>, i: Uuid)
    requires OthersKept(net, local, net', local', i)
    requires i in local' && Active(local'[i]) ==> Ready(net', local'[i])
    ensures AllReady(net', local')
  {
    forall j | j in local' && Active(local'[j]) ensures Ready(net', local'[j]) {
      if j != i { assert OneKept(net, net', local[j]); }
    }
  }

  lemma PartitionAdds(keys: set<Uuid>, parts: map<Uuid, set<Uuid>>, keys': set<Uuid>, parts': map<Uuid, set<Uuid>>,
                      i: Uuid)
    requires Partition(keys, parts) && Replaced(parts, parts', i) && i !in parts && i in parts'
    requires parts'[i] !! keys && keys' == keys + parts'[i]
    ensures Partition(keys', parts')
  {
    PartAdded(keys, parts, i, parts'[i]);
    assert parts' == parts[i := parts'[i]];
  }

  lemma PartitionDrops(keys: set<Uuid>, parts: map<Uuid, set<Uuid>>, keys': set<Uuid>, parts': map<Uuid, set<Uuid>>,
                       i: Uuid)
    requires Partition(keys, parts) && Replaced(parts, parts', i) && i in parts && i !in parts'
    requires keys' == keys - parts[i]
    ensures Partition(keys', parts')
  {
    PartDropped(keys, parts, i);
    assert parts' == parts - {i};
  }

  /** A record whose resources are all new in a store. */
  ghost predicate NewOwner(net: Net, net': Net, rec: FDURecord) {
    && Active(rec) && Ready(net', rec)
    && rec.hypervisorSpecific.value !in net.namespaces
    && net'.namespaces.Keys == net.namespaces.Keys + {rec.hypervisorSpecific.value}
    && IfOwned(net', rec.interfaces) !! net.interfaces.Keys
    && net'.interfaces.Keys == net.interfaces.Keys + IfOwned(net', rec.interfaces)
    && CpOwned(rec.connectionPoints) !! net.connectionPoints.Keys
    && net'.connectionPoints.Keys == net.connectionPoints.Keys + CpOwned(rec.connectionPoints)
  }

  lemma AddedNamespaces(net: Net, local: map<Uuid, FDURecord>, net': Net, local': map<Uuid, FDURecord>, i: Uuid)
    requires Partition(net.namespaces.Keys, NsParts(local)) && Replaced(NsParts(local), NsParts(local'), i)
    requires (i in local ==> !Active(local[i])) && i in local' && NewOwner(net, net', local'[i])
    ensures Partition(net'.namespaces.Keys, NsParts(local'))
  {
    assert NsParts(local')[i] == {local'[i].hypervisorSpecific.value};
    PartitionAdds(net.namespaces.Keys, NsParts(local), net'.namespaces.Keys, NsParts(local'), i);
  }

  lemma AddedInterfaces(net: Net, local: map<Uuid, FDURecord>, net': Net, local': map<Uuid, FDURecord>, i: Uuid)
    requires Partition(net.interfaces.Keys, IfParts(net, local))
    requires Replaced(IfParts(net, local), IfParts(net', local'), i)
    requires (i in local ==> !Active(local[i])) && i in local' && NewOwner(net, net', local'[i])
    ensures Partition(net'.interfaces.Keys, IfParts(net', local'))
  {
    assert IfParts(net', local')[i] == IfOwned(net', local'[i].interfaces);
    PartitionAdds(net.interfaces.Keys, IfParts(net, local), net'.interfaces.Keys, IfParts(net', local'), i);
  }

  lemma AddedCps(net: Net, local: map<Uuid, FDURecord>, net': Net, local': map<Uuid, FDURecord>, i: Uuid)
    requires Partition(net.connectionPoints.Keys, CpParts(local)) && Replaced(CpParts(local), CpParts(local'), i)
    requires (i in local ==> !Active(local[i])) && i in local' && NewOwner(net, net', local'[i])
    ensures Partition(net'.connectionPoints.Keys, CpParts(local'))
  {
    assert CpParts(local')[i] == CpOwned(local'[i].connectionPoints);
    PartitionAdds(net.connectionPoints.Keys, CpParts(local), net'.connectionPoints.Keys, CpParts(local'), i);
  }

  /** Adding one owner whose resources are all new. */
  lemma AddedOwner(net: Net, local: map<Uuid, FDURecord>, net': Net, local': map<Uuid, FDURecord>, i: Uuid)
    requires Conserved(net, local) && OthersKept(net, local, net', local', i)
    requires i in local ==> !Active(local[i])
    requires i in local' && NewOwner(net, net', local'[i])
    ensures Conserved(net', local')
  {
    OthersParts(net, local, net', local', i);
    AddedNamespaces(net, local, net', local', i);
    AddedInterfaces(net, local, net', local', i);
    AddedCps(net, local, net', local', i);
    OthersReady(net, local, net', local', i);
  }

  /** Removing one owner together with everything it owns. */
  lemma DroppedOwner(net: Net, local: map<Uuid, FDURecord>, net': Net, local': map<Uuid, FDURecord>, i: Uuid)
    requires Conserved(net, local) && OthersKept(net, local, net', local', i)
    requires i in local && Active(local[i]) && (i in local' ==> !Active(local'[i]))
    requires local[i].hypervisorSpecific.Some? && net' == Without(net, local[i])
    ensures Conserved(net', local')
  {
    OthersParts(net, local, net', local', i);
    OthersReady(net, local, net', local', i);
    PartitionDrops(net.namespaces.Keys, NsParts(local), net'.namespaces.Keys, NsParts(local'), i);
    PartitionDrops(net.interfaces.Keys, IfParts(net, local), net'.interfaces.Keys, IfParts(net', local'), i);
    PartitionDrops(net.connectionPoints.Keys, CpParts(local), net'.connectionPoints.Keys, CpParts(local'), i);
  }

  lemma ConservedConfigure(n: Node, m: Node, i: Uuid, desc: FDUDescriptor, d: ConfigureDraws)
    requires Conserved(n.net, n.local) && i in n.local && i in m.local && n.local[i].uuid == i && !Active(n.local[i])
    requires ConfiguredTo(n, m, i, desc, d) && CpOwned(m.local[i].connectionPoints) == CpKeys(d.cps)
    ensures Conserved(m.net, m.local)
  {
    forall j | j != i && j in n.local && Active(n.local[j]) ensures OneKept(n.net, m.net, n.local[j]) {
      RecordOwnsStored(n.net, n.local[j]);
      RecordKept(n.net, m.net, n.local[j]);
    }
    AddedOwner(n.net, n.local, m.net, m.local, i);
  }

  /** What record i owns is disjoint from what every other active record owns. */
  ghost predicate Apart(net: Net, local: map<Uuid, FDURecord>, i: Uuid)
    requires i in local
  {
    forall j | j in local && j != i && Active(local[j]) :: ApartFrom(net, local[i], local[j])
  }

  ghost predicate ApartFrom(net: Net, rec: FDURecord, other: FDURecord) {
    && rec.hypervisorSpecific != other.hypervisorSpecific
    && IfOwned(net, rec.interfaces) !! IfOwned(net, other.interfaces)
    && CpOwned(rec.connectionPoints) !! CpOwned(other.connectionPoints)
  }

  lemma OwnersApart(net: Net, local: map<Uuid, FDURecord>, i: Uuid)
    requires Conserved(net, local) && i in local && Active(local[i])
    ensures Ready(net, local[i]) && Apart(net, local, i)
  {
    forall j | j in local && j != i && Active(local[j]) ensures ApartFrom(net, local[i], local[j]) {
      assert Ready(net, local[i]) && Ready(net, local[j]);
      assert NsParts(local)[i] !! NsParts(local)[j];
      assert IfParts(net, local)[i] !! IfParts(net, local)[j];
      assert CpParts(local)[i] !! CpParts(local)[j];
    }
  }

  lemma OtherSurvives(net: Net, rec: FDURecord, other: FDURecord)
    requires Ready(net, rec) && Ready(net, other) && ApartFrom(net, rec, other)
    ensures OneKept(net, Without(net, rec), other)
  {
    RecordOwnsStored(net, other);
    RecordKept(net, Without(net, rec), other);
  }

  lemma OthersKeptWithout(net: Net, local: map<Uuid, FDURecord>, i: Uuid, rec: FDURecord)
    requires i in local && AllReady(net, local) && Ready(net, local[i]) && Apart(net, local, i)
    ensures OthersKept(net, local, Without(net, local[i]), local[i := rec], i)
  {
    forall j | j != i && j in local && Active(local[j]) ensures OneKept(net, Without(net, local[i]), local[j]) {
      assert ApartFrom(net, local[i], local[j]);
      OtherSurvives(net, local[i], local[j]);
    }
  }

  /** Releasing what a record owns, and making the record inactive, conserves. */
  lemma WithoutConserved(net: Net, local: map<Uuid, FDURecord>, i: Uuid, rec: FDURecord)
    requires Conserved(net, local) && i in local && Active(local[i]) && !Active(rec)
    ensures local[i].hypervisorSpecific.Some? && Conserved(Without(net, local[i]), local[i := rec])
  {
    OwnersApart(net, local, i);
    OthersKeptWithout(net, local, i, rec);
    DroppedOwner(net, local, Without(net, local[i]), local[i := rec], i);
  }

  /** In a conserved store clean_fdu on a configured instance never fails. */
  lemma CleanNeverFails(n: Node, i: Uuid)
    requires Conserved(n.net, n.local) && i in n.local && n.local[i].status == CONFIGURED
    ensures Ready(n.net, n.local[i])
    ensures Clean(n, i) == (Put(n.(net := Without(n.net, n.local[i])), Cleaned(n.local[i])), Ok(i))
  {
    ActiveReady(n.net, n.local, i);
    CleanEffect(n, i);
  }

  lemma ActiveReady(net: Net, local: map<Uuid, FDURecord>, i: Uuid)
    requires Conserved(net, local) && i in local && Active(local[i])
    ensures Ready(net, local[i])
  {
  }

  /** Configuring conserves resources exactly when the descriptor is well formed. */
  lemma ConfigureConservesIff(n: Node, catalog: map<Uuid, FDUDescriptor>, i: Uuid, d: ConfigureDraws, issued: set<Uuid>)
    requires CanConfigure(n, catalog, i, d, issued) && Conserved(n.net, n.local)
    ensures var m := Configure(n, catalog, i, d).0;
      Conserved(m.net, m.local) <==> WellFormedDescriptor(catalog[n.local[i].fduUuid])
  {
    ConfigureFramed(n, catalog, i, d, issued);
    if Configure(n, catalog, i, d).1.Err? {
      FailedConfigureLeaks(n, catalog, i, d, issued);
    } else {
      ConfiguredConservesIff(n, catalog, i, d, issued);
    }
  }

  lemma ConfiguredConservesIff(n: Node, catalog: map<Uuid, FDUDescriptor>, i: Uuid, d: ConfigureDraws,
                               issued: set<Uuid>)
    requires CanConfigure(n, catalog, i, d, issued) && Conserved(n.net, n.local)
    requires Configure(n, catalog, i, d).1.Ok?
    ensures var m := Configure(n, catalog, i, d).0;
      Conserved(m.net, m.local) <==> UniqueCpIds(catalog[n.local[i].fduUuid].connectionPoints)
  {
    ConfiguredOwnsAllIff(n, catalog, i, d, issued);
    DefinedInactive(n.local[i]);
    OwnedCpsDecide(n, Configure(n, catalog, i, d).0, i, catalog[n.local[i].fduUuid], d);
  }

  lemma DefinedInactive(rec: FDURecord)
    requires rec.status == DEFINED
    ensures !Active(rec)
  {
  }

  lemma ConfiguredActive(rec: FDURecord)
    requires rec.status == CONFIGURED
    ensures Active(rec) && !Active(Cleaned(rec))
  {
  }

  lemma ConfiguredOwnsAllIff(n: Node, catalog: map<Uuid, FDUDescriptor>, i: Uuid, d: ConfigureDraws, issued: set<Uuid>)
    requires CanConfigure(n, catalog, i, d, issued) && Configure(n, catalog, i, d).1.Ok?
    ensures var (m, desc) := (Configure(n, catalog, i, d).0, catalog[n.local[i].fduUuid]);
      && i in m.local && ConfiguredTo(n, m, i, desc, d)
      && (CpOwned(m.local[i].connectionPoints) == CpKeys(d.cps) <==> UniqueCpIds(desc.connectionPoints))
  {
    ConfigureEffect(n, catalog, i, d, issued);
    if !UniqueCpIds(catalog[n.local[i].fduUuid].connectionPoints) { RepeatedIdsLeak(n, catalog, i, d, issued); }
  }

  lemma OwnedCpsDecide(n: Node, m: Node, i: Uuid, desc: FDUDescriptor, d: ConfigureDraws)
    requires Conserved(n.net, n.local) && i in n.local && i in m.local && n.local[i].uuid == i && !Active(n.local[i])
    requires ConfiguredTo(n, m, i, desc, d)
    ensures Conserved(m.net, m.local) <==> CpOwned(m.local[i].connectionPoints) == CpKeys(d.cps)
  {
    if CpOwned(m.local[i].connectionPoints) == CpKeys(d.cps) {
      ConservedConfigure(n, m, i, desc, d);
    } else {
      UnownedCpRefutes(n, m, i, desc, d);
    }
  }

  lemma UnownedCpRefutes(n: Node, m: Node, i: Uuid, desc: FDUDescriptor, d: ConfigureDraws)
    requires Conserved(n.net, n.local) && i in n.local && i in m.local && n.local[i].uuid == i
    requires ConfiguredTo(n, m, i, desc, d) && CpOwned(m.local[i].connectionPoints) != CpKeys(d.cps)
    ensures !Conserved(m.net, m.local)
  {
    var u :| u in CpKeys(d.cps) && u !in CpOwned(m.local[i].connectionPoints);
    var parts := CpParts(m.local);
    forall j | j in parts ensures u !in parts[j] {
      if j != i { RecordOwnsStored(n.net, n.local[j]); }
    }
    assert u in m.net.connectionPoints.Keys;
  }

  /** A configure that stops with an error leaves its namespace behind. */
  lemma FailedConfigureLeaks(n: Node, catalog: map<Uuid, FDUDescriptor>, i: Uuid, d: ConfigureDraws, issued: set<Uuid>)
    requires CanConfigure(n, catalog, i, d, issued) && Conserved(n.net, n.local)
    requires Configure(n, catalog, i, d).1.Err?
    ensures var m := Configure(n, catalog, i, d).0;
      d.ns in m.net.namespaces && d.ns !in n.net.namespaces && !Conserved(m.net, m.local)
  {
    ConfigureFramed(n, catalog, i, d, issued);
    var net2, table, more := ConfigureStages(n, catalog, i, d, issued);
    InterfacesFramed(net2, d.ns, catalog[n.local[i].fduUuid].interfaces, d.veths, table, more);
    var m := Configure(n, catalog, i, d).0;
    var parts := NsParts(m.local);
    forall j | j in parts ensures d.ns !in parts[j] {
      assert Ready(n.net, n.local[j]);
    }
    assert d.ns in m.net.namespaces.Keys;
  }

  // ---------------------------------------------------------------- the plugin's errors

  /** What a plugin call can answer: never a malformed descriptor or a UUID in use. */
  predicate PluginAnswer<T>(r: Result<T>) {
    r.Err? ==> !r.error.MalformedDescriptor? && !r.error.UUIDError?
  }

  lemma {:induction false} AllocateCpsNotMalformed(net: Net, cps: seq<ConnectionPointDescriptor>, draws: seq<CpDraw>,
                                                   table: CpTable)
    requires |cps| == |draws|
    ensures PluginAnswer(AllocateCps(net, cps, draws, table).1)
    decreases |cps|
  {
    if cps != [] {
      var (net1, vcp) := CreateConnectionPoint(net, draws[0]);
      if vcp.Ok? {
        AllocateCpsNotMalformed(net1, cps[1..], draws[1..],
                                table[cps[0].id := FDURecordConnectionPoint(vcp.value.uuid, cps[0].id)]);
      }
    }
  }

  lemma {:induction false} AllocateInterfacesNotMalformed(net: Net, ns: Uuid, intfs: seq<Interface>,
                                                          draws: seq<VethDraw>, table: CpTable)
    requires |intfs| == |draws|
    ensures PluginAnswer(AllocateInterfaces(net, ns, intfs, draws, table).1)
    decreases |intfs|
  {
    if intfs != [] {
      var (net1, first) := AllocateInterface(net, ns, intfs[0], draws[0], table);
      if first.Ok? { AllocateInterfacesNotMalformed(net1, ns, intfs[1..], draws[1..], table); }
    }
  }

  lemma {:induction false} ReleaseInterfacesNotMalformed(net: Net, intfs: seq<FDURecordInterface>)
    ensures PluginAnswer(ReleaseInterfaces(net, intfs).1)
    decreases |intfs|
  {
    if intfs != [] { ReleaseInterfacesNotMalformed(DeleteVirtualInterface(net, intfs[0].intfUuid).0, intfs[1..]); }
  }

  lemma {:induction false} ReleaseCpsNotMalformed(net: Net, cps: seq<FDURecordConnectionPoint>)
    ensures PluginAnswer(ReleaseCps(net, cps).1)
    decreases |cps|
  {
    if cps != [] { ReleaseCpsNotMalformed(DeleteConnectionPoint(net, cps[0].uuid).0, cps[1..]); }
  }

  /** Although the code has a branch for it, configuring never finds a descriptor malformed: what it
      asks the network plugin for is always a VETH pair. */
  lemma ConfigureNotMalformed(n: Node, catalog: map<Uuid, FDUDescriptor>, i: Uuid, d: ConfigureDraws)
    requires i in n.local && n.local[i].fduUuid in catalog ==> DrawsFit(catalog[n.local[i].fduUuid], d)
    ensures PluginAnswer(Configure(n, catalog, i, d).1)
  {
    if i in n.local && n.local[i].fduUuid in catalog {
      var desc := catalog[n.local[i].fduUuid];
      var net1 := CreateNamespace(n.net, d.ns).0;
      AllocateCpsNotMalformed(net1, desc.connectionPoints, d.cps, map[]);
      var (net2, table) := AllocateCps(net1, desc.connectionPoints, d.cps, map[]);
      if table.Ok? { AllocateInterfacesNotMalformed(net2, d.ns, desc.interfaces, d.veths, table.value); }
    }
  }

  lemma CleanNotMalformed(n: Node, i: Uuid)
    ensures PluginAnswer(Clean(n, i).1)
  {
    if i in n.local && n.local[i].hypervisorSpecific.Some? {
      var rec := n.local[i];
      var net1 := DeleteNamespace(n.net, rec.hypervisorSpecific.value).0;
      ReleaseInterfacesNotMalformed(net1, rec.interfaces);
      ReleaseCpsNotMalformed(ReleaseInterfaces(net1, rec.interfaces).0, rec.connectionPoints);
    }
  }
}
