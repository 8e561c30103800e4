/** What holds in every reachable state: records and caches agree, replication converges, no
    deleted instance comes back, and node resources are conserved. */
module Runs {
  import opened Model
  import opened Network
  import opened Hypervisor
  import opened Protocol

  // ---------------------------------------------------------------- plugin calls and the stores

  /** What a plugin call does to the local store, the cache and the FIFO: nothing on an error, a
      removal for undefine, and otherwise exactly one put of the instance's new record. */
  lemma ApplyEffect(node: Node, catalog: map<Uuid, FDUDescriptor>, op: PluginOp, i: Uuid)
    requires op.Configure? && i in node.local && node.local[i].fduUuid in catalog ==>
               DrawsFit(catalog[node.local[i].fduUuid], op.draws)
    requires i in node.local ==> node.local[i].uuid == i
    ensures var (m, r) := Apply(node, catalog, op, i);
      && (r.Err? ==> m == node.(net := m.net))
      && (r.Ok? ==> i in node.local)
      && (r.Ok? && op.Undefine? ==>
            node.local[i].status == DEFINED && m == node.(local := node.local - {i}, cache := node.cache - {i}))
      && (r.Ok? && !op.Undefine? ==> i in m.local && PutRecord(node, m, i, CallAfter(node.local[i].node, op).status))
  {
  }

  ghost predicate PutRecord(node: Node, m: Node, i: Uuid, status: FDUState)
    requires i in node.local && i in m.local
  {
    var rec := m.local[i];
    && m == Put(node.(net := m.net), rec)
    && rec.uuid == i && rec.node == node.local[i].node && rec.fduUuid == node.local[i].fduUuid
    && rec.status == status && node.local[i].status != status
    && LegalEdge(node.local[i].status, status)
  }

  /** The lifecycle graph. */
  predicate LegalEdge(s: FDUState, t: FDUState) {
    (s, t) in {(DEFINED, CONFIGURED), (CONFIGURED, RUNNING), (RUNNING, CONFIGURED), (CONFIGURED, DEFINED)}
  }

  // ---------------------------------------------------------------- records and caches

  /** A node's instance stores: the cache is the local store, and every record and message is
      about an instance of this node that was drawn before. */
  ghost predicate Tidy(node: Node, n: Uuid, issued: set<Uuid>) {
    && node.cache == node.local
    && (forall i | i in node.local :: TidyRecord(node.local[i], i, n, issued))
    && (forall k | 0 <= k < |node.fifo| :: TidyRecord(node.fifo[k], node.fifo[k].uuid, n, issued))
  }

  ghost predicate TidyRecord(rec: FDURecord, i: Uuid, n: Uuid, issued: set<Uuid>) {
    rec.uuid == i && rec.node == n && i in issued && !rec.status.ERROR?
  }

  ghost predicate Structure(w: World) {
    && (forall n | n in w.nodes :: Tidy(w.nodes[n], n, w.issued))
    && (forall i | i in w.records ::
          w.records[i].node in w.nodes && TidyRecord(w.records[i], i, w.records[i].node, w.issued))
    && w.inflight.Keys <= w.issued
    && (forall f | f in w.catalog :: w.catalog[f].uuid == Some(f))
    && (forall e | e in w.entities :: w.entities[e].uuid == Some(e))
    && (forall r | r in w.entityRecords :: w.entityRecords[r].uuid == r)
  }

  /** Every local record lies under its own id and names its own node. */
  lemma OwnRecord(w: World, n: Uuid, i: Uuid)
    requires Structure(w) && n in w.nodes && i in w.nodes[n].local
    ensures w.nodes[n].local[i].uuid == i && w.nodes[n].local[i].node == n && i in w.issued
  {
    assert Tidy(w.nodes[n], n, w.issued) && TidyRecord(w.nodes[n].local[i], i, n, w.issued);
  }

  lemma TidyPut(node: Node, n: Uuid, issued: set<Uuid>, m: Node, rec: FDURecord, more: set<Uuid>)
    requires Tidy(node, n, issued) && issued <= more && TidyRecord(rec, rec.uuid, n, more)
    requires m == Put(node.(net := m.net), rec)
    ensures Tidy(m, n, more)
  {
    forall k | 0 <= k < |m.fifo| ensures TidyRecord(m.fifo[k], m.fifo[k].uuid, n, more) {
      if k < |node.fifo| { assert m.fifo[k] == node.fifo[k]; }
    }
    forall j | j in m.local ensures TidyRecord(m.local[j], j, n, more) {
      if j != rec.uuid { assert TidyRecord(node.local[j], j, n, issued); }
    }
  }

  lemma TidyMore(node: Node, n: Uuid, issued: set<Uuid>, more: set<Uuid>)
    requires Tidy(node, n, issued) && issued <= more
    ensures Tidy(node, n, more)
  {
    forall k | 0 <= k < |node.fifo| ensures TidyRecord(node.fifo[k], node.fifo[k].uuid, n, more) {
      assert TidyRecord(node.fifo[k], node.fifo[k].uuid, n, issued);
    }
    forall j | j in node.local ensures TidyRecord(node.local[j], j, n, more) {
      assert TidyRecord(node.local[j], j, n, issued);
    }
  }

  lemma IssuedGrows(issued: set<Uuid>, d: ConfigureDraws)
    ensures issued <= IssueDraws(issued, d)
  {
    IssueCpsGrows(issued + {d.ns}, d.cps);
  }

  lemma {:induction false} IssueCpsGrows(issued: set<Uuid>, draws: seq<CpDraw>)
    ensures issued <= IssueCps(issued, draws)
    decreases |draws|
  {
    if draws != [] { IssueCpsGrows(Issue(issued, CpDrawIds(draws[0])), draws[1..]); }
  }

  lemma TidyApply(node: Node, n: Uuid, issued: set<Uuid>, catalog: map<Uuid, FDUDescriptor>, op: PluginOp, i: Uuid,
                  more: set<Uuid>)
    requires Tidy(node, n, issued) && issued <= more
    requires op.Configure? && i in node.local && node.local[i].fduUuid in catalog ==>
               DrawsFit(catalog[node.local[i].fduUuid], op.draws)
    ensures Tidy(Apply(node, catalog, op, i).0, n, more)
  {
    if i in node.local { assert TidyRecord(node.local[i], i, n, issued); }
    ApplyEffect(node, catalog, op, i);
    var (m, r) := Apply(node, catalog, op, i);
    TidyMore(node, n, issued, more);
    if r.Ok? && !op.Undefine? { TidyPut(node, n, issued, m, m.local[i], more); }
  }

  lemma StepIssues(w: World, l: Label)
    requires Enabled(w, l)
    ensures w.issued <= Next(w, l).issued && Next(w, l).nodes.Keys == w.nodes.Keys
  {
    if l.PluginCall? {
      PluginIssues(w, l.n, l.op, l.i);
    } else {
      PlainIssues(w, l);
    }
  }

  lemma PluginIssues(w: World, n: Uuid, op: PluginOp, i: Uuid)
    requires Enabled(w, PluginCall(n, op, i))
    ensures w.issued <= Next(w, PluginCall(n, op, i)).issued && Next(w, PluginCall(n, op, i)).nodes.Keys == w.nodes.Keys
  {
    if op.Configure? { IssuedGrows(w.issued, op.draws); }
  }

  lemma PlainIssues(w: World, l: Label)
    requires Enabled(w, l) && !l.PluginCall?
    ensures w.issued <= Next(w, l).issued && Next(w, l).nodes.Keys == w.nodes.Keys
  {
  }

  lemma StepKeepsTidy(w: World, l: Label, n: Uuid)
    requires Structure(w) && Enabled(w, l) && n in w.nodes
    ensures n in Next(w, l).nodes && Tidy(Next(w, l).nodes[n], n, Next(w, l).issued)
  {
    StepIssues(w, l);
    TidyMore(w.nodes[n], n, w.issued, Next(w, l).issued);
    match l
    case DefineCall(k, fdu, u) =>
      if k == n {
        TidyPut(w.nodes[n], n, w.issued, Next(w, l).nodes[n], Next(w, l).nodes[n].local[u], Next(w, l).issued);
      }
    case PluginCall(k, op, i) =>
      if k == n { TidyApply(w.nodes[n], n, w.issued, w.catalog, op, i, Next(w, l).issued); }
    case _ =>
  }

  lemma StepKeepsCatalogs(w: World, l: Label)
    requires Structure(w) && Enabled(w, l)
    ensures var w' := Next(w, l);
      && w'.inflight.Keys <= w'.issued
      && (forall f | f in w'.catalog :: w'.catalog[f].uuid == Some(f))
      && (forall e | e in w'.entities :: w'.entities[e].uuid == Some(e))
      && (forall r | r in w'.entityRecords :: w'.entityRecords[r].uuid == r)
  {
    InflightIssued(w, l);
    CatalogsSelfKeyed(w, l);
  }

  lemma InflightIssued(w: World, l: Label)
    requires Structure(w) && Enabled(w, l)
    ensures Next(w, l).inflight.Keys <= Next(w, l).issued
  {
    StepIssues(w, l);
    if l.PluginCall? { PluginInflight(w, l.n, l.op, l.i); }
  }

  /** A plugin call that is answered was about an instance of that node. */
  lemma PluginInflight(w: World, n: Uuid, op: PluginOp, i: Uuid)
    requires Structure(w) && Enabled(w, PluginCall(n, op, i))
    ensures Next(w, PluginCall(n, op, i)).inflight.Keys <= w.issued
  {
    if i in w.nodes[n].local { OwnRecord(w, n, i); }
    ApplyEffect(w.nodes[n], w.catalog, op, i);
  }

  lemma CatalogsSelfKeyed(w: World, l: Label)
    requires Enabled(w, l)
    requires forall f | f in w.catalog :: w.catalog[f].uuid == Some(f)
    requires forall e | e in w.entities :: w.entities[e].uuid == Some(e)
    requires forall r | r in w.entityRecords :: w.entityRecords[r].uuid == r
    ensures forall f | f in Next(w, l).catalog :: Next(w, l).catalog[f].uuid == Some(f)
    ensures forall e | e in Next(w, l).entities :: Next(w, l).entities[e].uuid == Some(e)
    ensures forall r | r in Next(w, l).entityRecords :: Next(w, l).entityRecords[r].uuid == r
  {
    DescriptorsSelfKeyed(w, l);
    EntitiesSelfKeyed(w, l);
  }

  lemma DescriptorsSelfKeyed(w: World, l: Label)
    requires Enabled(w, l) && forall f | f in w.catalog :: w.catalog[f].uuid == Some(f)
    ensures forall f | f in Next(w, l).catalog :: Next(w, l).catalog[f].uuid == Some(f)
  {
  }

  lemma EntitiesSelfKeyed(w: World, l: Label)
    requires Enabled(w, l) && forall e | e in w.entities :: w.entities[e].uuid == Some(e)
    ensures forall e | e in Next(w, l).entities :: Next(w, l).entities[e].uuid == Some(e)
  {
  }

  /** Every step, serialised or not, keeps the plugin cache equal to the local store and every
      record under its own id on its own node. */
  lemma StepKeepsStructure(w: World, l: Label)
    requires Structure(w) && Enabled(w, l)
    ensures Structure(Next(w, l))
  {
    var w' := Next(w, l);
    StepIssues(w, l);
    forall n | n in w'.nodes ensures Tidy(w'.nodes[n], n, w'.issued) {
      StepKeepsTidy(w, l, n);
    }
    forall i | i in w'.records
      ensures w'.records[i].node in w'.nodes && TidyRecord(w'.records[i], i, w'.records[i].node, w'.issued)
    {
      StepKeepsRecord(w, l, i);
    }
    StepKeepsCatalogs(w, l);
  }

  lemma StepKeepsRecord(w: World, l: Label, i: Uuid)
    requires Structure(w) && Enabled(w, l) && i in Next(w, l).records
    ensures Next(w, l).records[i].node in w.nodes
    ensures TidyRecord(Next(w, l).records[i], i, Next(w, l).records[i].node, Next(w, l).issued)
  {
    StepIssues(w, l);
    if l.Deliver? && w.nodes[l.n].fifo[0].uuid == i {
      assert Tidy(w.nodes[l.n], l.n, w.issued);
    } else {
      assert TidyRecord(w.records[i], i, w.records[i].node, w.issued);
    }
  }

  lemma {:induction false} RunKeepsStructure(w: World, ls: seq<Label>)
    requires Structure(w) && Legal(w, ls)
    ensures Structure(Exec(w, ls))
    decreases |ls|
  {
    if ls != [] {
      StepKeepsStructure(w, ls[0]);
      RunKeepsStructure(Next(w, ls[0]), ls[1..]);
    }
  }

  lemma InitStructure(w: World)
    requires Init(w)
    ensures Structure(w)
  {
  }

  /** In every reachable state of any run, on every node the plugin cache is the local store. */
  lemma CacheIsLocalStore(w: World, ls: seq<Label>)
    requires Init(w) && Legal(w, ls)
    ensures forall n | n in Exec(w, ls).nodes :: Exec(w, ls).nodes[n].cache == Exec(w, ls).nodes[n].local
  {
    InitStructure(w);
    RunKeepsStructure(w, ls);
    forall n | n in Exec(w, ls).nodes ensures Exec(w, ls).nodes[n].cache == Exec(w, ls).nodes[n].local {
      assert Tidy(Exec(w, ls).nodes[n], n, Exec(w, ls).issued);
    }
  }

  // ---------------------------------------------------------------- one instance, serialised

  /** Node-level facts about one instance: nothing in the local store, nothing in the FIFO. */
  ghost predicate AbsentAt(node: Node, i: Uuid) {
    i !in node.local && Pending(node.fifo, i) == []
  }

  ghost predicate AbsentElsewhere(w: World, h: Uuid, i: Uuid) {
    forall n | n in w.nodes && n != h :: AbsentAt(w.nodes[n], i)
  }

  ghost predicate AbsentEverywhere(w: World, i: Uuid) {
    forall n | n in w.nodes :: AbsentAt(w.nodes[n], i)
  }

  /** No agent call in flight: the global record and the home node's record are the same and
      nothing is waiting, or the instance exists nowhere. */
  ghost predicate Quiet(w: World, i: Uuid) {
    if i in w.records then
      var h := w.records[i].node;
      && h in w.nodes && i in w.nodes[h].local && w.nodes[h].local[i] == w.records[i]
      && Pending(w.nodes[h].fifo, i) == []
      && AbsentElsewhere(w, h, i)
    else AbsentEverywhere(w, i)
  }

  /** A call waiting for a status: the home node already has it, and either exactly that record
      is still in the FIFO while the global store shows another status, or it has arrived. */
  ghost predicate Waiting(w: World, i: Uuid, h: Uuid, status: FDUState) {
    && h in w.nodes && i in w.nodes[h].local && w.nodes[h].local[i].status == status
    && AbsentElsewhere(w, h, i)
    && var rec := w.nodes[h].local[i];
    || (&& Pending(w.nodes[h].fifo, i) == [rec]
        && (i in w.records ==>
              w.records[i].status != status && w.records[i].node == h && w.records[i].fduUuid == rec.fduUuid))
    || (Pending(w.nodes[h].fifo, i) == [] && i in w.records && w.records[i] == rec)
  }

  ghost predicate InstanceOk(w: World, i: Uuid) {
    if i !in w.inflight then Quiet(w, i)
    else match w.inflight[i]
      case Await(h, status) => Waiting(w, i, h, status)
      case Removing(h) => i in w.records && w.records[i].node == h && AbsentEverywhere(w, i)
  }

  ghost predicate Coherent(w: World) {
    forall i :: InstanceOk(w, i)
  }

  // ---------------------------------------------------------------- steps on other instances

  ghost predicate ViewSame(node: Node, m: Node, i: Uuid) {
    && (i in node.local <==> i in m.local)
    && (i in node.local && i in m.local ==> m.local[i] == node.local[i])
    && Pending(m.fifo, i) == Pending(node.fifo, i)
  }

  ghost predicate SameFor(w: World, w': World, i: Uuid) {
    && w'.nodes.Keys == w.nodes.Keys
    && (forall n | n in w.nodes :: ViewSame(w.nodes[n], w'.nodes[n], i))
    && SameAtRecords(w, w', i)
  }

  lemma SameForKeeps(w: World, w': World, i: Uuid)
    requires SameFor(w, w', i) && InstanceOk(w, i)
    ensures InstanceOk(w', i)
  {
    forall n | n in w.nodes ensures AbsentAt(w.nodes[n], i) <==> AbsentAt(w'.nodes[n], i) {
      assert ViewSame(w.nodes[n], w'.nodes[n], i);
    }
    forall n | n in w.nodes ensures ViewSame(w.nodes[n], w'.nodes[n], i) {
    }
    if i in w.inflight && w.inflight[i].Await? {
      assert ViewSame(w.nodes[w.inflight[i].home], w'.nodes[w.inflight[i].home], i);
    }
    if i !in w.inflight && i in w.records {
      assert ViewSame(w.nodes[w.records[i].node], w'.nodes[w.records[i].node], i);
    }
  }

  lemma PutElsewhere(node: Node, m: Node, rec: FDURecord, i: Uuid)
    requires m == Put(node.(net := m.net), rec) && rec.uuid != i
    ensures ViewSame(node, m, i)
  {
    PendingAppend(node.fifo, rec, i);
  }

  /** The instance a step is about. */
  function Subject(w: World, l: Label): Option<Uuid> {
    match l
    case Deliver(n) => if n in w.nodes && w.nodes[n].fifo != [] then Some(w.nodes[n].fifo[0].uuid) else None
    case DefineCall(_, _, u) => Some(u)
    case PluginCall(_, _, i) => Some(i)
    case Return(i) => Some(i)
    case RemoveRecord(i) => Some(i)
    case _ => None
  }

  /** Replacing one node's stores by ones that look the same for instance i. */
  ghost predicate OneNodeChanged(w: World, w': World, n: Uuid, m: Node, i: Uuid) {
    && n in w.nodes && w'.nodes == w.nodes[n := m] && ViewSame(w.nodes[n], m, i)
    && (i in w.records <==> i in w'.records) && (i in w.records && i in w'.records ==> w'.records[i] == w.records[i])
    && (i in w.inflight <==> i in w'.inflight)
       && (i in w.inflight && i in w'.inflight ==> w'.inflight[i] == w.inflight[i])
  }

  lemma OneNodeElsewhere(w: World, w': World, n: Uuid, m: Node, i: Uuid)
    requires OneNodeChanged(w, w', n, m, i)
    ensures SameFor(w, w', i)
  {
  }

  lemma DeliverElsewhere(w: World, n: Uuid, i: Uuid)
    requires Enabled(w, Deliver(n)) && w.nodes[n].fifo[0].uuid != i
    ensures SameFor(w, Next(w, Deliver(n)), i)
  {
    var node := w.nodes[n];
    OneNodeElsewhere(w, Next(w, Deliver(n)), n, node.(fifo := node.fifo[1..]), i);
  }

  lemma DefineElsewhere(w: World, n: Uuid, fdu: Uuid, u: Uuid, i: Uuid)
    requires Enabled(w, DefineCall(n, fdu, u)) && u != i
    ensures SameFor(w, Next(w, DefineCall(n, fdu, u)), i)
  {
    var (m, r) := Define(w.nodes[n], n, fdu, u);
    PutElsewhere(w.nodes[n], m, r.value, i);
    OneNodeElsewhere(w, Next(w, DefineCall(n, fdu, u)), n, m, i);
  }

  lemma PluginElsewhere(w: World, n: Uuid, op: PluginOp, j: Uuid, i: Uuid)
    requires Structure(w) && Enabled(w, PluginCall(n, op, j)) && i != j
    ensures SameFor(w, Next(w, PluginCall(n, op, j)), i)
  {
    ApplyElsewhere(w, n, op, j, i);
    OneNodeElsewhere(w, Next(w, PluginCall(n, op, j)), n, Apply(w.nodes[n], w.catalog, op, j).0, i);
  }

  /** A step leaves every instance it is not about exactly as it was. */
  lemma StepElsewhere(w: World, l: Label, i: Uuid)
    requires Structure(w) && Enabled(w, l) && Subject(w, l) != Some(i)
    ensures SameFor(w, Next(w, l), i)
  {
    match l
    case Deliver(n) => DeliverElsewhere(w, n, i);
    case DefineCall(n, fdu, u) => DefineElsewhere(w, n, fdu, u, i);
    case PluginCall(n, op, j) => PluginElsewhere(w, n, op, j, i);
    case _ => GlobalElsewhere(w, l, i);
  }

  /** Steps that leave the nodes alone. */
  lemma GlobalElsewhere(w: World, l: Label, i: Uuid)
    requires Enabled(w, l) && Subject(w, l) != Some(i) && !l.Deliver? && !l.DefineCall? && !l.PluginCall?
    ensures SameFor(w, Next(w, l), i)
  {
    NodesLeft(w, l);
    if l.Return? || l.RemoveRecord? { CallsElsewhere(w, l, i); } else { InstancesLeft(w, l); }
  }

  lemma CallsElsewhere(w: World, l: Label, i: Uuid)
    requires Enabled(w, l) && Subject(w, l) != Some(i) && (l.Return? || l.RemoveRecord?)
    ensures SameAtRecords(w, Next(w, l), i)
  {
  }

  lemma InstancesLeft(w: World, l: Label)
    requires Enabled(w, l) && !l.Deliver? && !l.DefineCall? && !l.PluginCall? && !l.Return? && !l.RemoveRecord?
    ensures Next(w, l).records == w.records && Next(w, l).inflight == w.inflight
  {
    if l.Fetch? || l.Abandon? {
      ReadLeavesInstances(w, l);
    } else if l.Instantiate? || l.Publish? {
      RecordLeavesInstances(w, l);
    } else {
      CatalogLeavesInstances(w, l);
    }
  }

  lemma ReadLeavesInstances(w: World, l: Label)
    requires Enabled(w, l) && (l.Fetch? || l.Abandon?)
    ensures Next(w, l).records == w.records && Next(w, l).inflight == w.inflight
  {
  }

  lemma RecordLeavesInstances(w: World, l: Label)
    requires Enabled(w, l) && (l.Instantiate? || l.Publish?)
    ensures Next(w, l).records == w.records && Next(w, l).inflight == w.inflight
  {
  }

  lemma CatalogLeavesInstances(w: World, l: Label)
    requires Enabled(w, l) && (l.Onboard? || l.Offload? || l.OnboardEntity? || l.OffloadEntity?)
    ensures Next(w, l).records == w.records && Next(w, l).inflight == w.inflight
  {
  }

  ghost predicate SameAtRecords(w: World, w': World, i: Uuid) {
    && (i in w.records <==> i in w'.records) && (i in w.records && i in w'.records ==> w'.records[i] == w.records[i])
    && (i in w.inflight <==> i in w'.inflight)
    && (i in w.inflight && i in w'.inflight ==> w'.inflight[i] == w.inflight[i])
  }

  lemma ApplyElsewhere(w: World, n: Uuid, op: PluginOp, j: Uuid, i: Uuid)
    requires Structure(w) && Enabled(w, PluginCall(n, op, j)) && i != j
    ensures ViewSame(w.nodes[n], Apply(w.nodes[n], w.catalog, op, j).0, i)
  {
    var node := w.nodes[n];
    assert Tidy(node, n, w.issued);
    ApplyEffect(node, w.catalog, op, j);
    var (m, r) := Apply(node, w.catalog, op, j);
    if r.Ok? && !op.Undefine? { PutElsewhere(node, m, m.local[j], i); }
  }

  // ---------------------------------------------------------------- steps on the instance itself

  lemma DeliverKeeps(w: World, n: Uuid)
    requires Structure(w) && Coherent(w) && Enabled(w, Deliver(n))
    ensures InstanceOk(Next(w, Deliver(n)), w.nodes[n].fifo[0].uuid)
  {
    var i := w.nodes[n].fifo[0].uuid;
    var w' := Next(w, Deliver(n));
    assert InstanceOk(w, i);
    var rest := Pending(w.nodes[n].fifo[1..], i);
    assert Pending(w.nodes[n].fifo, i) == [w.nodes[n].fifo[0]] + rest;
    assert !AbsentAt(w.nodes[n], i);
    assert Waiting(w, i, n, w.inflight[i].status);
    assert rest == [] && w.nodes[n].fifo[0] == w.nodes[n].local[i] by {
      assert |[w.nodes[n].fifo[0]] + rest| == 1 + |rest|;
      assert ([w.nodes[n].fifo[0]] + rest)[0] == w.nodes[n].fifo[0];
    }
    forall k | k in w'.nodes && k != n ensures AbsentAt(w'.nodes[k], i) {
      assert AbsentAt(w.nodes[k], i);
    }
  }

  /** A UUID that was never drawn is the id of nothing. */
  lemma UndrawnUnknown(w: World, u: Uuid)
    requires Structure(w) && u !in w.issued
    ensures u !in w.records && u !in w.inflight
  {
    assert forall i | i in w.records :: TidyRecord(w.records[i], i, w.records[i].node, w.issued);
  }

  lemma DefineKeeps(w: World, n: Uuid, fdu: Uuid, u: Uuid)
    requires Structure(w) && Coherent(w) && Enabled(w, DefineCall(n, fdu, u))
    ensures InstanceOk(Next(w, DefineCall(n, fdu, u)), u)
  {
    UndrawnUnknown(w, u);
    assert InstanceOk(w, u);
    NewWaits(w, Next(w, DefineCall(n, fdu, u)), n, Define(w.nodes[n], n, fdu, u).1.value);
  }

  /** An instance that was nowhere, right after its first put. */
  lemma NewWaits(w: World, w': World, n: Uuid, rec: FDURecord)
    requires n in w.nodes && AbsentEverywhere(w, rec.uuid) && rec.uuid !in w.records
    requires w'.nodes == w.nodes[n := Put(w.nodes[n], rec)] && w'.records == w.records
    requires rec.uuid in w'.inflight && w'.inflight[rec.uuid] == Await(n, rec.status)
    ensures InstanceOk(w', rec.uuid)
  {
    assert AbsentAt(w.nodes[n], rec.uuid);
    PendingAppend(w.nodes[n].fifo, rec, rec.uuid);
    assert [] + [rec] == [rec];
    forall k | k in w'.nodes && k != n ensures AbsentAt(w'.nodes[k], rec.uuid) {
      assert AbsentAt(w.nodes[k], rec.uuid);
    }
  }

  /** A plugin call on an instance that is quiet on its node. */
  lemma ApplyQuiet(node: Node, catalog: map<Uuid, FDUDescriptor>, op: PluginOp, i: Uuid, rec: FDURecord)
    requires op.Configure? && i in node.local && node.local[i].fduUuid in catalog ==>
               DrawsFit(catalog[node.local[i].fduUuid], op.draws)
    requires i in node.local && node.local[i] == rec && rec.uuid == i && Pending(node.fifo, i) == []
    ensures var (m, r) := Apply(node, catalog, op, i);
      && (r.Err? ==> i in m.local && m.local[i] == rec && Pending(m.fifo, i) == [])
      && (r.Ok? && op.Undefine? ==> AbsentAt(m, i))
      && (r.Ok? && !op.Undefine? ==>
            && i in m.local && Pending(m.fifo, i) == [m.local[i]]
            && m.local[i].status == CallAfter(rec.node, op).status && rec.status != m.local[i].status
            && m.local[i].fduUuid == rec.fduUuid)
  {
    ApplyEffect(node, catalog, op, i);
    var (m, r) := Apply(node, catalog, op, i);
    if r.Ok? && !op.Undefine? { PendingAppend(node.fifo, m.local[i], i); }
  }

  lemma PluginKeeps(w: World, n: Uuid, op: PluginOp, i: Uuid)
    requires Structure(w) && Coherent(w) && Enabled(w, PluginCall(n, op, i)) && Serial(w, PluginCall(n, op, i))
    ensures InstanceOk(Next(w, PluginCall(n, op, i)), i)
  {
    QuietHome(w, i);
    PluginStarts(w, Next(w, PluginCall(n, op, i)), n, op, i);
  }

  /** With no call in flight the global record's node has that record and nothing pending. */
  lemma QuietHome(w: World, i: Uuid)
    requires Structure(w) && Coherent(w) && i !in w.inflight && i in w.records
    ensures Quiet(w, i) && w.records[i].uuid == i
  {
    assert InstanceOk(w, i) && TidyRecord(w.records[i], i, w.records[i].node, w.issued);
  }

  lemma PluginStarts(w: World, w': World, n: Uuid, op: PluginOp, i: Uuid)
    requires i in w.records && w.records[i].node == n && n in w.nodes && DrawsAllowed(w, n, op, i)
    requires i !in w.inflight && Quiet(w, i) && w.records[i].uuid == i
    requires var (m, r) := Apply(w.nodes[n], w.catalog, op, i);
      && w'.nodes == w.nodes[n := m] && w'.records == w.records
      && w'.inflight == if r.Ok? then w.inflight[i := CallAfter(n, op)] else w.inflight
    ensures InstanceOk(w', i)
  {
    ApplyQuiet(w.nodes[n], w.catalog, op, i, w.records[i]);
    var (m, r) := Apply(w.nodes[n], w.catalog, op, i);
    CallStarted(w, w', n, m, i, if r.Ok? then Some(CallAfter(n, op)) else None);
  }

  /** From quiet to in flight: what the stores must look like right after the plugin call. */
  lemma CallStarted(w: World, w': World, n: Uuid, m: Node, i: Uuid, call: Option<Call>)
    requires Quiet(w, i) && i !in w.inflight && i in w.records && w.records[i].node == n && n in w.nodes
    requires w'.nodes == w.nodes[n := m] && w'.records == w.records
    requires w'.inflight == if call.Some? then w.inflight[i := call.value] else w.inflight
    requires call.None? ==> i in m.local && m.local[i] == w.records[i] && Pending(m.fifo, i) == []
    requires call.Some? ==> call.value.home == n
    requires call.Some? && call.value.Removing? ==> AbsentAt(m, i)
    requires call.Some? && call.value.Await? ==>
      && i in m.local && Pending(m.fifo, i) == [m.local[i]]
      && m.local[i].status == call.value.status && w.records[i].status != call.value.status
      && m.local[i].fduUuid == w.records[i].fduUuid
    ensures InstanceOk(w', i)
  {
    forall k | k in w'.nodes && k != n ensures AbsentAt(w'.nodes[k], i) {
      assert AbsentAt(w.nodes[k], i);
    }
  }

  lemma ReturnKeeps(w: World, i: Uuid)
    requires Structure(w) && Coherent(w) && Enabled(w, Return(i))
    ensures InstanceOk(Next(w, Return(i)), i)
    ensures var h := w.inflight[i].home;
      h in w.nodes && i in w.nodes[h].local && w.records[i] == w.nodes[h].local[i] && Pending(w.nodes[h].fifo, i) == []
  {
    assert InstanceOk(w, i);
    var h := w.inflight[i].home;
    assert Tidy(w.nodes[h], h, w.issued) && TidyRecord(w.nodes[h].local[i], i, h, w.issued);
  }

  lemma RemoveKeeps(w: World, i: Uuid)
    requires Structure(w) && Coherent(w) && Enabled(w, RemoveRecord(i))
    ensures InstanceOk(Next(w, RemoveRecord(i)), i)
  {
    assert InstanceOk(w, i);
  }

  /** Every serialised step keeps every instance coherent. */
  lemma StepKeepsCoherent(w: World, l: Label)
    requires Structure(w) && Coherent(w) && Enabled(w, l) && Serial(w, l)
    ensures Coherent(Next(w, l))
  {
    forall i ensures InstanceOk(Next(w, l), i) {
      assert InstanceOk(w, i);
      if Subject(w, l) != Some(i) {
        StepElsewhere(w, l, i);
        SameForKeeps(w, Next(w, l), i);
      } else {
        match l
        case Deliver(n) => DeliverKeeps(w, n);
        case DefineCall(n, fdu, u) => DefineKeeps(w, n, fdu, u);
        case PluginCall(n, op, _) => PluginKeeps(w, n, op, i);
        case Return(_) => ReturnKeeps(w, i);
        case RemoveRecord(_) => RemoveKeeps(w, i);
      }
    }
  }

  lemma {:induction false} RunKeepsCoherent(w: World, ls: seq<Label>)
    requires Structure(w) && Coherent(w) && Legal(w, ls) && SerialRun(w, ls)
    ensures Structure(Exec(w, ls)) && Coherent(Exec(w, ls))
    decreases |ls|
  {
    if ls != [] {
      StepKeepsStructure(w, ls[0]);
      StepKeepsCoherent(w, ls[0]);
      RunKeepsCoherent(Next(w, ls[0]), ls[1..]);
    }
  }
}
