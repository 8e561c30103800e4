/** Runs that leave earlier instances alone and end without new ones give back every node's
    instance store and network store. */
module Restoration {
  import opened Model
  import opened Network
  import opened Hypervisor
  import opened Conservation
  import opened Protocol
  import opened Runs
  import opened Resources

  /** Everything the record owns in s is stored unchanged in t. */
  ghost predicate OwnKept(s: Net, t: Net, rec: FDURecord) {
    && rec.hypervisorSpecific.Some?
    && IfOwned(t, rec.interfaces) == IfOwned(s, rec.interfaces)
    && KeptOn(s.namespaces, t.namespaces, {rec.hypervisorSpecific.value})
    && KeptOn(s.interfaces, t.interfaces, IfOwned(s, rec.interfaces))
    && KeptOn(s.connectionPoints, t.connectionPoints, CpOwned(rec.connectionPoints))
  }

  ghost predicate KeptOn<K, V>(m: map<K, V>, m': map<K, V>, keys: set<K>) {
    forall k | k in keys :: k in m && k in m' && m'[k] == m[k]
  }

  lemma OwnKeptTrans(s: Net, t: Net, u: Net, rec: FDURecord)
    requires OwnKept(s, t, rec) && OwnKept(t, u, rec)
    ensures OwnKept(s, u, rec)
  {
  }

  lemma OwnKeptRefl(s: Net, rec: FDURecord)
    requires Ready(s, rec)
    ensures OwnKept(s, s, rec)
  {
    RecordOwnsStored(s, rec);
  }

  lemma GrownKeepsOwn(s: Net, t: Net, rec: FDURecord)
    requires Ready(s, rec) && Grown(s, t)
    ensures OwnKept(s, t, rec)
  {
    RecordOwnsStored(s, rec);
    RecordKept(s, t, rec);
  }

  lemma WithoutKeepsOwn(s: Net, gone: FDURecord, rec: FDURecord)
    requires Ready(s, gone) && Ready(s, rec) && ApartFrom(s, gone, rec)
    ensures OwnKept(s, Without(s, gone), rec)
  {
    RecordOwnsStored(s, rec);
    OtherSurvives(s, gone, rec);
  }

  // ---------------------------------------------------------------- one step

  lemma ConfigureKeepsOwn(node: Node, catalog: map<Uuid, FDUDescriptor>, i: Uuid, d: ConfigureDraws, issued: set<Uuid>,
                          rec: FDURecord)
    requires NodeConserved(node, issued) && (i in node.local ==> node.local[i].uuid == i) && FreshDraws(d, issued)
    requires i in node.local && node.local[i].fduUuid in catalog ==> DrawsFit(catalog[node.local[i].fduUuid], d)
    requires Ready(node.net, rec)
    ensures OwnKept(node.net, Hypervisor.Configure(node, catalog, i, d).0.net, rec)
  {
    if i in node.local && node.local[i].fduUuid in catalog && node.local[i].status == DEFINED {
      ConfigureFramed(node, catalog, i, d, issued);
      GrownKeepsOwn(node.net, Hypervisor.Configure(node, catalog, i, d).0.net, rec);
    } else {
      OwnKeptRefl(node.net, rec);
    }
  }

  lemma CleanKeepsOwn(node: Node, i: Uuid, j: Uuid, issued: set<Uuid>)
    requires NodeConserved(node, issued) && i != j && j in node.local && Active(node.local[j])
    ensures OwnKept(node.net, Hypervisor.Clean(node, i).0.net, node.local[j])
  {
    ActiveReady(node.net, node.local, j);
    if i in node.local && node.local[i].status == CONFIGURED {
      CleanNeverFails(node, i);
      OwnersApart(node.net, node.local, i);
      assert ApartFrom(node.net, node.local[i], node.local[j]);
      WithoutKeepsOwn(node.net, node.local[i], node.local[j]);
    } else {
      OwnKeptRefl(node.net, node.local[j]);
    }
  }

  /** Start, stop and undefine do not touch the network store. */
  lemma LightKeepsNet(node: Node, catalog: map<Uuid, FDUDescriptor>, op: PluginOp, i: Uuid)
    requires op.Start? || op.Stop? || op.Undefine?
    ensures Apply(node, catalog, op, i).0.net == node.net
  {
  }

  lemma ApplyKeepsOwn(node: Node, catalog: map<Uuid, FDUDescriptor>, op: PluginOp, i: Uuid, j: Uuid, issued: set<Uuid>)
    requires NodeConserved(node, issued) && (i in node.local ==> node.local[i].uuid == i)
    requires op.Configure? ==> FreshDraws(op.draws, issued)
    requires op.Configure? && i in node.local && node.local[i].fduUuid in catalog ==>
      DrawsFit(catalog[node.local[i].fduUuid], op.draws)
    requires i != j && j in node.local && Active(node.local[j])
    ensures OwnKept(node.net, Apply(node, catalog, op, i).0.net, node.local[j])
  {
    match op
    case Configure(d) =>
      ActiveReady(node.net, node.local, j);
      ConfigureKeepsOwn(node, catalog, i, d, issued, node.local[j]);
    case Clean => CleanKeepsOwn(node, i, j, issued);
    case _ =>
      LightKeepsNet(node, catalog, op, i);
      ActiveReady(node.net, node.local, j);
      OwnKeptRefl(node.net, node.local[j]);
  }

  /** The step makes no plugin call on instance j. */
  predicate Spares(l: Label, j: Uuid) {
    l.PluginCall? ==> l.i != j
  }

  /** The record of instance j and what it owns are the same on node m as on node. */
  ghost predicate InstanceKept(node: Node, m: Node, j: Uuid)
    requires j in node.local
  {
    && j in m.local && m.local[j] == node.local[j]
    && (Active(node.local[j]) ==> OwnKept(node.net, m.net, node.local[j]))
  }

  lemma SameNetKeeps(node: Node, m: Node, j: Uuid, issued: set<Uuid>)
    requires NodeConserved(node, issued) && j in node.local && j in m.local && m.local[j] == node.local[j]
    requires m.net == node.net
    ensures InstanceKept(node, m, j)
  {
    if Active(node.local[j]) {
      ActiveReady(node.net, node.local, j);
      OwnKeptRefl(node.net, node.local[j]);
    }
  }

  lemma PluginSpares(w: World, n: Uuid, op: PluginOp, i: Uuid, j: Uuid)
    requires Structure(w) && AllConserved(w) && Enabled(w, PluginCall(n, op, i)) && i != j && j in w.nodes[n].local
    ensures InstanceKept(w.nodes[n], Apply(w.nodes[n], w.catalog, op, i).0, j)
  {
    var node := w.nodes[n];
    assert Tidy(node, n, w.issued) && NodeConserved(node, w.issued);
    if i in node.local { assert TidyRecord(node.local[i], i, n, w.issued); }
    ApplyElsewhere(w, n, op, i, j);
    if Active(node.local[j]) { ApplyKeepsOwn(node, w.catalog, op, i, j, w.issued); }
  }

  /** A step that spares a record leaves it and what it owns as they were. */
  lemma StepSpares(w: World, l: Label, n: Uuid, j: Uuid)
    requires Structure(w) && AllConserved(w) && Enabled(w, l) && Spares(l, j)
    requires n in w.nodes && j in w.nodes[n].local
    ensures n in Next(w, l).nodes && InstanceKept(w.nodes[n], Next(w, l).nodes[n], j)
  {
    if l.PluginCall? && l.n == n {
      PluginSpares(w, n, l.op, l.i, j);
    } else {
      assert Tidy(w.nodes[n], n, w.issued) && TidyRecord(w.nodes[n].local[j], j, n, w.issued);
      OtherStepSpares(w, l, n, j);
      assert NodeConserved(w.nodes[n], w.issued);
      SameNetKeeps(w.nodes[n], Next(w, l).nodes[n], j, w.issued);
    }
  }

  lemma OtherStepSpares(w: World, l: Label, n: Uuid, j: Uuid)
    requires Enabled(w, l) && !(l.PluginCall? && l.n == n) && n in w.nodes && j in w.nodes[n].local && j in w.issued
    ensures n in Next(w, l).nodes && j in Next(w, l).nodes[n].local
    ensures Next(w, l).nodes[n].local[j] == w.nodes[n].local[j] && Next(w, l).nodes[n].net == w.nodes[n].net
  {
    if !((l.Deliver? || l.DefineCall?) && l.n == n) { OtherNodesLeft(w, l, n); }
  }

  // ---------------------------------------------------------------- whole runs

  ghost predicate RunSpares(ls: seq<Label>, j: Uuid) {
    forall l | l in ls :: Spares(l, j)
  }

  lemma {:induction false} RunKeepsOwn(w: World, ls: seq<Label>, n: Uuid, j: Uuid)
    requires Structure(w) && AllConserved(w) && Legal(w, ls) && WellFormedRun(ls) && RunSpares(ls, j)
    requires n in w.nodes && j in w.nodes[n].local
    ensures n in Exec(w, ls).nodes && InstanceKept(w.nodes[n], Exec(w, ls).nodes[n], j)
    decreases |ls|
  {
    if ls == [] {
      assert NodeConserved(w.nodes[n], w.issued);
      SameNetKeeps(w.nodes[n], w.nodes[n], j, w.issued);
    } else {
      var w1 := Next(w, ls[0]);
      assert ls[0] in ls && forall l | l in ls[1..] :: l in ls;
      StepSpares(w, ls[0], n, j);
      StepKeepsStructure(w, ls[0]);
      StepConserves(w, ls[0]);
      RunKeepsOwn(w1, ls[1..], n, j);
      if Active(w.nodes[n].local[j]) {
        OwnKeptTrans(w.nodes[n].net, w1.nodes[n].net, Exec(w1, ls[1..]).nodes[n].net, w.nodes[n].local[j]);
      }
    }
  }

  ghost predicate AllOwnKept(s: Net, t: Net, local: map<Uuid, FDURecord>) {
    forall j | j in local && Active(local[j]) :: OwnKept(s, t, local[j])
  }

  /** Two stores that the same parts partition, and that agree on every part, are equal. */
  lemma PartsDetermine<V>(m: map<Uuid, V>, m': map<Uuid, V>, parts: map<Uuid, set<Uuid>>)
    requires Partition(m.Keys, parts) && Partition(m'.Keys, parts)
    requires forall i | i in parts :: KeptOn(m, m', parts[i])
    ensures m == m'
  {
    forall u | u in m.Keys + m'.Keys ensures u in m && u in m' && m[u] == m'[u] {
      var i :| i in parts && u in parts[i];
      assert KeptOn(m, m', parts[i]);
    }
    assert m.Keys == m'.Keys;
  }

  lemma OwnPartsKept(s: Net, t: Net, local: map<Uuid, FDURecord>)
    requires AllOwnKept(s, t, local)
    ensures IfParts(t, local) == IfParts(s, local)
    ensures forall i | i in NsParts(local) :: KeptOn(s.namespaces, t.namespaces, NsParts(local)[i])
    ensures forall i | i in IfParts(s, local) :: KeptOn(s.interfaces, t.interfaces, IfParts(s, local)[i])
    ensures forall i | i in CpParts(local) :: KeptOn(s.connectionPoints, t.connectionPoints, CpParts(local)[i])
  {
  }

  lemma NetRestored(s: Net, t: Net, local: map<Uuid, FDURecord>)
    requires Conserved(s, local) && Conserved(t, local) && AllOwnKept(s, t, local)
    ensures s == t
  {
    OwnPartsKept(s, t, local);
    PartsDetermine(s.namespaces, t.namespaces, NsParts(local));
    PartsDetermine(s.interfaces, t.interfaces, IfParts(s, local));
    PartsDetermine(s.connectionPoints, t.connectionPoints, CpParts(local));
  }

  lemma LocalRestored(w: World, ls: seq<Label>, n: Uuid)
    requires Structure(w) && AllConserved(w) && Legal(w, ls) && WellFormedRun(ls) && n in w.nodes
    requires forall j | j in w.nodes[n].local :: RunSpares(ls, j)
    requires n in Exec(w, ls).nodes && Exec(w, ls).nodes[n].local.Keys <= w.nodes[n].local.Keys
    ensures Exec(w, ls).nodes[n].local == w.nodes[n].local
    ensures AllOwnKept(w.nodes[n].net, Exec(w, ls).nodes[n].net, w.nodes[n].local)
  {
    var m := Exec(w, ls).nodes[n];
    forall j | j in w.nodes[n].local ensures InstanceKept(w.nodes[n], m, j) {
      RunKeepsOwn(w, ls, n, j);
    }
    AllKept(w.nodes[n], m);
  }

  lemma AllKept(node: Node, m: Node)
    requires (forall j | j in node.local :: InstanceKept(node, m, j)) && m.local.Keys <= node.local.Keys
    ensures m.local == node.local && AllOwnKept(node.net, m.net, node.local)
  {
    assert m.local.Keys == node.local.Keys;
  }

  /** A run that makes no plugin call on an instance that was there at the start, and at whose
      end no other instance is left, has restored the instance store, the plugin cache and the
      network store of every node, whatever it configured, cleaned and removed in between. */
  lemma RunRestores(w: World, ls: seq<Label>, n: Uuid)
    requires Structure(w) && AllConserved(w) && Legal(w, ls) && WellFormedRun(ls) && n in w.nodes
    requires forall j | j in w.nodes[n].local :: RunSpares(ls, j)
    requires n in Exec(w, ls).nodes && Exec(w, ls).nodes[n].local.Keys <= w.nodes[n].local.Keys
    ensures Exec(w, ls).nodes[n].local == w.nodes[n].local && Exec(w, ls).nodes[n].net == w.nodes[n].net
    ensures Exec(w, ls).nodes[n].cache == w.nodes[n].cache
  {
    var w' := Exec(w, ls);
    LocalRestored(w, ls, n);
    RunConserves(w, ls);
    assert Tidy(w.nodes[n], n, w.issued) && Tidy(w'.nodes[n], n, w'.issued);
    assert NodeConserved(w.nodes[n], w.issued) && NodeConserved(w'.nodes[n], w'.issued);
    NetRestored(w.nodes[n].net, w'.nodes[n].net, w.nodes[n].local);
  }
}
