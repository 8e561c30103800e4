/** Whole-run results about node resources and catalog references: conservation, restoration by
    runs that undo what they did, and referential integrity. */
module Resources {
  import opened Model
  import opened Network
  import opened Hypervisor
  import opened Conservation
  import opened Protocol
  import opened Runs
  import opened Replication

  // ---------------------------------------------------------------- conservation over runs

  ghost predicate StoredIssued(net: Net, issued: set<Uuid>) {
    net.namespaces.Keys <= issued && net.interfaces.Keys <= issued && net.connectionPoints.Keys <= issued
  }

  ghost predicate NodeConserved(node: Node, issued: set<Uuid>) {
    StoredIssued(node.net, issued) && Conserved(node.net, node.local)
  }

  /** Every node's stored resources are the disjoint union of what its active records own. */
  ghost predicate AllConserved(w: World) {
    && (forall n | n in w.nodes :: NodeConserved(w.nodes[n], w.issued))
    && (forall f | f in w.catalog :: WellFormedDescriptor(w.catalog[f]))
  }

  lemma InactiveAdded(local: map<Uuid, FDURecord>, rec: FDURecord)
    requires rec.uuid !in local && !Active(rec)
    ensures SameOwners(local, local[rec.uuid := rec])
  {
  }

  lemma InactiveRemoved(local: map<Uuid, FDURecord>, i: Uuid)
    requires i in local && !Active(local[i])
    ensures SameOwners(local, local - {i})
  {
  }

  lemma StatusChanged(local: map<Uuid, FDURecord>, i: Uuid, status: FDUState)
    requires i in local && Active(local[i]) && status in {CONFIGURED, RUNNING}
    ensures SameOwners(local, local[i := local[i].(status := status)])
  {
  }

  lemma CleanConserves(node: Node, i: Uuid, issued: set<Uuid>)
    requires NodeConserved(node, issued) && (i in node.local ==> node.local[i].uuid == i)
    ensures NodeConserved(Hypervisor.Clean(node, i).0, issued)
  {
    if i in node.local && node.local[i].status == CONFIGURED {
      CleanNeverFails(node, i);
      CleanedConserves(node, i, issued);
    }
  }

  lemma CleanedConserves(node: Node, i: Uuid, issued: set<Uuid>)
    requires NodeConserved(node, issued) && i in node.local && node.local[i].uuid == i
    requires node.local[i].status == CONFIGURED
    ensures node.local[i].hypervisorSpecific.Some?
    ensures NodeConserved(Put(node.(net := Without(node.net, node.local[i])), Cleaned(node.local[i])), issued)
  {
    ConfiguredActive(node.local[i]);
    WithoutConserved(node.net, node.local, i, Cleaned(node.local[i]));
  }

  lemma ConfigureConserves(node: Node, catalog: map<Uuid, FDUDescriptor>, i: Uuid, d: ConfigureDraws, issued: set<Uuid>)
    requires NodeConserved(node, issued) && (i in node.local ==> node.local[i].uuid == i) && FreshDraws(d, issued)
    requires i in node.local && node.local[i].fduUuid in catalog ==>
      DrawsFit(catalog[node.local[i].fduUuid], d) && WellFormedDescriptor(catalog[node.local[i].fduUuid])
    ensures NodeConserved(Hypervisor.Configure(node, catalog, i, d).0, IssueDraws(issued, d))
  {
    IssuedGrows(issued, d);
    if i in node.local && node.local[i].fduUuid in catalog && node.local[i].status == DEFINED {
      ConfigureConservesIff(node, catalog, i, d, issued);
      ConfigureIssues(node, catalog, i, d, issued);
      FreshCpKeys(d.cps, issued + {d.ns});
    }
  }

  /** Start, stop and undefine do not touch resources. */
  lemma LightConserves(node: Node, catalog: map<Uuid, FDUDescriptor>, op: PluginOp, i: Uuid, issued: set<Uuid>)
    requires NodeConserved(node, issued) && (i in node.local ==> node.local[i].uuid == i)
    requires op.Start? || op.Stop? || op.Undefine?
    ensures NodeConserved(Apply(node, catalog, op, i).0, issued)
  {
    var m := Apply(node, catalog, op, i).0;
    LightOwners(node, catalog, op, i);
    ConservedSameOwners(node.net, node.local, m.local);
  }

  lemma LightOwners(node: Node, catalog: map<Uuid, FDUDescriptor>, op: PluginOp, i: Uuid)
    requires (i in node.local ==> node.local[i].uuid == i) && (op.Start? || op.Stop? || op.Undefine?)
    ensures var m := Apply(node, catalog, op, i).0;
      m.net == node.net && SameOwners(node.local, m.local)
  {
    if op.Start? && i in node.local && node.local[i].status == CONFIGURED {
      StatusChanged(node.local, i, RUNNING);
    } else if op.Stop? && i in node.local && node.local[i].status == RUNNING {
      StatusChanged(node.local, i, CONFIGURED);
    } else if op.Undefine? && i in node.local && node.local[i].status == DEFINED {
      InactiveRemoved(node.local, i);
    } else {
      assert Apply(node, catalog, op, i).0 == node;
    }
  }

  lemma ApplyConserves(node: Node, catalog: map<Uuid, FDUDescriptor>, op: PluginOp, i: Uuid, issued: set<Uuid>)
    requires NodeConserved(node, issued) && (i in node.local ==> node.local[i].uuid == i)
    requires op.Configure? ==> FreshDraws(op.draws, issued)
    requires op.Configure? && i in node.local && node.local[i].fduUuid in catalog ==>
      DrawsFit(catalog[node.local[i].fduUuid], op.draws) && WellFormedDescriptor(catalog[node.local[i].fduUuid])
    ensures NodeConserved(Apply(node, catalog, op, i).0, if op.Configure? then IssueDraws(issued, op.draws) else issued)
  {
    if op.Configure? {
      ConfigureConserves(node, catalog, i, op.draws, issued);
    } else if op.Clean? {
      CleanConserves(node, i, issued);
    } else {
      LightConserves(node, catalog, op, i, issued);
    }
  }

  lemma DefineConserves(node: Node, n: Uuid, fdu: Uuid, u: Uuid, issued: set<Uuid>)
    requires NodeConserved(node, issued) && u !in node.local
    ensures NodeConserved(Define(node, n, fdu, u).0, issued + {u})
  {
    var (m, r) := Define(node, n, fdu, u);
    InactiveAdded(node.local, r.value);
    ConservedSameOwners(node.net, node.local, m.local);
  }

  lemma NodeStepConserves(w: World, l: Label, n: Uuid)
    requires Structure(w) && AllConserved(w) && Enabled(w, l) && n in w.nodes
    ensures n in Next(w, l).nodes && NodeConserved(Next(w, l).nodes[n], Next(w, l).issued)
  {
    StepIssues(w, l);
    assert NodeConserved(w.nodes[n], w.issued);
    if l.DefineCall? && l.n == n {
      DefineCallConserves(w, n, l.fdu, l.drawn);
    } else if l.PluginCall? && l.n == n {
      PluginConserves(w, n, l.op, l.i);
    } else {
      UntouchedConserves(w, l, n);
    }
  }

  /** Steps on other nodes or on the global store keep a node's stores, if not its FIFO. */
  lemma UntouchedConserves(w: World, l: Label, n: Uuid)
    requires Enabled(w, l) && n in w.nodes && NodeConserved(w.nodes[n], w.issued) && w.issued <= Next(w, l).issued
    requires !(l.DefineCall? && l.n == n) && !(l.PluginCall? && l.n == n)
    ensures n in Next(w, l).nodes && NodeConserved(Next(w, l).nodes[n], Next(w, l).issued)
  {
    assert Next(w, l).nodes[n].net == w.nodes[n].net && Next(w, l).nodes[n].local == w.nodes[n].local;
  }

  lemma DefineCallConserves(w: World, n: Uuid, fdu: Uuid, u: Uuid)
    requires Structure(w) && AllConserved(w) && Enabled(w, DefineCall(n, fdu, u))
    ensures NodeConserved(Define(w.nodes[n], n, fdu, u).0, w.issued + {u})
  {
    UndrawnAbsent(w, u);
    assert AbsentAt(w.nodes[n], u) && NodeConserved(w.nodes[n], w.issued);
    DefineConserves(w.nodes[n], n, fdu, u, w.issued);
  }

  lemma PluginConserves(w: World, n: Uuid, op: PluginOp, i: Uuid)
    requires Structure(w) && AllConserved(w) && Enabled(w, PluginCall(n, op, i))
    ensures NodeConserved(Next(w, PluginCall(n, op, i)).nodes[n], Next(w, PluginCall(n, op, i)).issued)
  {
    if i in w.nodes[n].local { OwnRecord(w, n, i); }
    ApplyAt(w, n, op, i);
  }

  lemma ApplyAt(w: World, n: Uuid, op: PluginOp, i: Uuid)
    requires AllConserved(w) && n in w.nodes && DrawsAllowed(w, n, op, i)
    requires i in w.nodes[n].local ==> w.nodes[n].local[i].uuid == i
    ensures NodeConserved(Apply(w.nodes[n], w.catalog, op, i).0,
                          if op.Configure? then IssueDraws(w.issued, op.draws) else w.issued)
  {
    assert NodeConserved(w.nodes[n], w.issued);
    ApplyConserves(w.nodes[n], w.catalog, op, i, w.issued);
  }

  lemma StepConserves(w: World, l: Label)
    requires Structure(w) && AllConserved(w) && Enabled(w, l) && WellFormedLabel(l)
    ensures AllConserved(Next(w, l))
  {
    StepIssues(w, l);
    forall n | n in w.nodes ensures NodeConserved(Next(w, l).nodes[n], Next(w, l).issued) {
      NodeStepConserves(w, l, n);
    }
    CatalogStaysWellFormed(w, l);
  }

  lemma CatalogStaysWellFormed(w: World, l: Label)
    requires (forall f | f in w.catalog :: WellFormedDescriptor(w.catalog[f])) && Enabled(w, l) && WellFormedLabel(l)
    ensures forall f | f in Next(w, l).catalog :: WellFormedDescriptor(Next(w, l).catalog[f])
  {
  }

  ghost predicate WellFormedRun(ls: seq<Label>) {
    forall l | l in ls :: WellFormedLabel(l)
  }

  lemma {:induction false} RunConserves(w: World, ls: seq<Label>)
    requires Structure(w) && AllConserved(w) && Legal(w, ls) && WellFormedRun(ls)
    ensures Structure(Exec(w, ls)) && AllConserved(Exec(w, ls))
    decreases |ls|
  {
    if ls != [] {
      assert ls[0] in ls && forall l | l in ls[1..] :: l in ls;
      StepKeepsStructure(w, ls[0]);
      StepConserves(w, ls[0]);
      RunConserves(Next(w, ls[0]), ls[1..]);
    }
  }

  lemma InitConserved(w: World)
    requires Init(w)
    ensures AllConserved(w)
  {
  }

  /** Whole-run conservation: with well-formed descriptors, in every reachable state of any run,
      the namespaces, interfaces and connection points stored on a node are exactly the disjoint
      union of those its CONFIGURED and RUNNING records own, so cleaning a configured instance
      never fails. */
  lemma ReachableConserved(w: World, ls: seq<Label>, n: Uuid)
    requires Init(w) && Legal(w, ls) && WellFormedRun(ls) && n in w.nodes
    ensures n in Exec(w, ls).nodes && Conserved(Exec(w, ls).nodes[n].net, Exec(w, ls).nodes[n].local)
    ensures forall i | i in Exec(w, ls).nodes[n].local && Exec(w, ls).nodes[n].local[i].status == CONFIGURED ::
              Hypervisor.Clean(Exec(w, ls).nodes[n], i).1 == Ok(i)
  {
    InitStructure(w);
    InitConserved(w);
    RunConserves(w, ls);
    RunNodes(w, ls);
    var node := Exec(w, ls).nodes[n];
    assert NodeConserved(node, Exec(w, ls).issued);
    forall i | i in node.local && node.local[i].status == CONFIGURED ensures Hypervisor.Clean(node, i).1 == Ok(i) {
      CleanNeverFails(node, i);
    }
  }

  lemma {:induction false} RunNodes(w: World, ls: seq<Label>)
    requires Legal(w, ls)
    ensures Exec(w, ls).nodes.Keys == w.nodes.Keys && w.issued <= Exec(w, ls).issued
    decreases |ls|
  {
    if ls != [] {
      StepIssues(w, ls[0]);
      RunNodes(Next(w, ls[0]), ls[1..]);
    }
  }
}
