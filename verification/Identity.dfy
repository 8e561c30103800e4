/** In every run, serialised or not, an instance has one FDU: its records in the local stores, in
    the messages on the way and in the global store all name the same one. */
module Identity {
  import opened Model
  import opened Hypervisor
  import opened Protocol
  import opened Runs
  import opened Replication

  /** The node's store or one of its messages has a record of instance i as one of FDU f. */
  ghost predicate NodeHas(node: Node, i: Uuid, f: Uuid) {
    || (i in node.local && node.local[i].fduUuid == f)
    || exists k :: 0 <= k < |node.fifo| && node.fifo[k].uuid == i && node.fifo[k].fduUuid == f
  }

  ghost predicate HasFdu(w: World, i: Uuid, f: Uuid) {
    || (i in w.records && w.records[i].fduUuid == f)
    || exists n :: n in w.nodes && NodeHas(w.nodes[n], i, f)
  }

  ghost predicate OneFdu(w: World) {
    forall i, f, g | HasFdu(w, i, f) && HasFdu(w, i, g) :: f == g
  }

  /** Whatever has a record was drawn before. */
  lemma HasIssued(w: World, i: Uuid, f: Uuid)
    requires Structure(w) && HasFdu(w, i, f)
    ensures i in w.issued
  {
    if i in w.records && w.records[i].fduUuid == f {
      assert TidyRecord(w.records[i], i, w.records[i].node, w.issued);
    } else {
      var n :| n in w.nodes && NodeHas(w.nodes[n], i, f);
      assert Tidy(w.nodes[n], n, w.issued);
    }
  }

  lemma PutHas(node: Node, m: Node, rec: FDURecord, i: Uuid, f: Uuid)
    requires m == Put(node.(net := m.net), rec) && NodeHas(m, i, f)
    ensures NodeHas(node, i, f) || (rec.uuid == i && rec.fduUuid == f)
  {
    if !(i in m.local && m.local[i].fduUuid == f) {
      var k :| 0 <= k < |m.fifo| && m.fifo[k].uuid == i && m.fifo[k].fduUuid == f;
      if k < |node.fifo| { assert node.fifo[k] == m.fifo[k]; }
    }
  }

  lemma PluginHas(w: World, n: Uuid, op: PluginOp, j: Uuid, i: Uuid, f: Uuid)
    requires Structure(w) && Enabled(w, PluginCall(n, op, j))
    requires NodeHas(Apply(w.nodes[n], w.catalog, op, j).0, i, f)
    ensures NodeHas(w.nodes[n], i, f)
  {
    PluginEffect(w, n, op, j);
    var (m, r) := Apply(w.nodes[n], w.catalog, op, j);
    if r.Ok? && op.Undefine? {
      assert m.fifo == w.nodes[n].fifo;
    } else if r.Ok? {
      PutHas(w.nodes[n], m, m.local[j], i, f);
    }
  }

  /** Steps that leave nodes and global records to be found as they were. */
  lemma QuietHas(w: World, l: Label, i: Uuid, f: Uuid)
    requires Enabled(w, l) && !l.Deliver? && !l.DefineCall? && !l.PluginCall?
    ensures HasFdu(Next(w, l), i, f) ==> HasFdu(w, i, f)
  {
    assert Next(w, l).nodes == w.nodes;
  }

  lemma OneNodeHas(w: World, w': World, n: Uuid, i: Uuid, f: Uuid)
    requires n in w.nodes && n in w'.nodes && w'.nodes == w.nodes[n := w'.nodes[n]] && w'.records == w.records
    requires HasFdu(w', i, f)
    ensures HasFdu(w, i, f) || NodeHas(w'.nodes[n], i, f)
  {
    if !(i in w.records && w.records[i].fduUuid == f) {
      var k :| k in w'.nodes && NodeHas(w'.nodes[k], i, f);
    }
  }

  lemma DeliverHas(w: World, n: Uuid, i: Uuid, f: Uuid)
    requires Enabled(w, Deliver(n)) && HasFdu(Next(w, Deliver(n)), i, f)
    ensures HasFdu(w, i, f)
  {
    var w' := Next(w, Deliver(n));
    if i in w'.records && w'.records[i].fduUuid == f {
      if w.nodes[n].fifo[0].uuid == i { assert NodeHas(w.nodes[n], i, f); }
    } else {
      var k :| k in w'.nodes && NodeHas(w'.nodes[k], i, f);
      TailHas(w.nodes[k], w'.nodes[k], i, f);
    }
  }

  lemma TailHas(node: Node, m: Node, i: Uuid, f: Uuid)
    requires m == node || (node.fifo != [] && m == node.(fifo := node.fifo[1..]))
    ensures NodeHas(m, i, f) ==> NodeHas(node, i, f)
  {
  }

  /** A step gives an FDU only to the instance that it defines. */
  lemma StepHas(w: World, l: Label, i: Uuid, f: Uuid)
    requires Structure(w) && Enabled(w, l) && HasFdu(Next(w, l), i, f)
    ensures HasFdu(w, i, f) || (l.DefineCall? && l.drawn == i && l.fdu == f)
  {
    if l.Deliver? {
      DeliverHas(w, l.n, i, f);
    } else if l.DefineCall? {
      OneNodeHas(w, Next(w, l), l.n, i, f);
      if NodeHas(Next(w, l).nodes[l.n], i, f) {
        PutHas(w.nodes[l.n], Next(w, l).nodes[l.n], Define(w.nodes[l.n], l.n, l.fdu, l.drawn).1.value, i, f);
      }
    } else if l.PluginCall? {
      OneNodeHas(w, Next(w, l), l.n, i, f);
      if NodeHas(Next(w, l).nodes[l.n], i, f) { PluginHas(w, l.n, l.op, l.i, i, f); }
    } else {
      QuietHas(w, l, i, f);
    }
  }

  /** No step gives an instance a second FDU. */
  lemma StepKeepsOneFdu(w: World, l: Label)
    requires Structure(w) && OneFdu(w) && Enabled(w, l)
    ensures OneFdu(Next(w, l))
  {
    forall i, f, g | HasFdu(Next(w, l), i, f) && HasFdu(Next(w, l), i, g) ensures f == g {
      StepHas(w, l, i, f);
      StepHas(w, l, i, g);
      if HasFdu(w, i, f) { HasIssued(w, i, f); }
      if HasFdu(w, i, g) { HasIssued(w, i, g); }
    }
  }

  /** A delivered record names the FDU that the global record already names. */
  lemma DeliverKeepsFdu(w: World, n: Uuid)
    requires OneFdu(w) && Enabled(w, Deliver(n))
    ensures var rec := w.nodes[n].fifo[0];
      rec.uuid in w.records ==> w.records[rec.uuid].fduUuid == rec.fduUuid
  {
    var rec := w.nodes[n].fifo[0];
    assert NodeHas(w.nodes[n], rec.uuid, rec.fduUuid);
    assert HasFdu(w, rec.uuid, rec.fduUuid);
    if rec.uuid in w.records { assert HasFdu(w, rec.uuid, w.records[rec.uuid].fduUuid); }
  }

  lemma {:induction false} RunKeepsOneFdu(w: World, ls: seq<Label>)
    requires Structure(w) && OneFdu(w) && Legal(w, ls)
    ensures Structure(Exec(w, ls)) && OneFdu(Exec(w, ls))
    decreases |ls|
  {
    if ls != [] {
      StepKeepsStructure(w, ls[0]);
      StepKeepsOneFdu(w, ls[0]);
      RunKeepsOneFdu(Next(w, ls[0]), ls[1..]);
    }
  }

  /** In every state of any run from the start an instance has one FDU. */
  lemma ReachableOneFdu(w: World, ls: seq<Label>)
    requires Init(w) && Legal(w, ls)
    ensures OneFdu(Exec(w, ls))
  {
    StartsWithNone(w);
    RunKeepsOneFdu(w, ls);
  }

  lemma StartsWithNone(w: World)
    requires Init(w)
    ensures Structure(w) && OneFdu(w)
  {
    InitStructure(w);
    forall i, f ensures !HasFdu(w, i, f) {
    }
  }
}
