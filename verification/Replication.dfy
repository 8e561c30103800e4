/** Replication of plugin writes into the global store: what is delivered and what is pending make
    up what was written, deletions are final, and poll loops see the record they wait for. */
module Replication {
  import opened Model
  import opened Hypervisor
  import opened Protocol
  import opened Runs

  // ---------------------------------------------------------------- histories

  /** The record a step puts into node n's local store. */
  ghost function Wrote(w: World, l: Label, n: Uuid): seq<FDURecord>
    requires Enabled(w, l)
  {
    match l
    case DefineCall(k, fdu, u) => if k == n then [Define(w.nodes[n], n, fdu, u).1.value] else []
    case PluginCall(k, op, i) =>
      var (m, r) := Apply(w.nodes[k], w.catalog, op, i);
      if k == n && r.Ok? && !op.Undefine? && i in m.local then [m.local[i]] else []
    case _ => []
  }

  /** The record a step applies to the global store from node n's subscription. */
  ghost function Applied(w: World, l: Label, n: Uuid): seq<FDURecord>
    requires Enabled(w, l)
  {
    if l.Deliver? && l.n == n then [w.nodes[n].fifo[0]] else []
  }

  ghost function Written(w: World, ls: seq<Label>, n: Uuid): seq<FDURecord>
    requires Legal(w, ls)
    decreases |ls|
  {
    if ls == [] then [] else Wrote(w, ls[0], n) + Written(Next(w, ls[0]), ls[1..], n)
  }

  ghost function Delivered(w: World, ls: seq<Label>, n: Uuid): seq<FDURecord>
    requires Legal(w, ls)
    decreases |ls|
  {
    if ls == [] then [] else Applied(w, ls[0], n) + Delivered(Next(w, ls[0]), ls[1..], n)
  }

  lemma PluginFifo(w: World, n: Uuid, op: PluginOp, i: Uuid)
    requires Structure(w) && Enabled(w, PluginCall(n, op, i))
    ensures var node := Apply(w.nodes[n], w.catalog, op, i).0;
      node.fifo == w.nodes[n].fifo + Wrote(w, PluginCall(n, op, i), n)
    ensures forall rec | rec in Wrote(w, PluginCall(n, op, i), n) :: rec.uuid == i
  {
    var node := w.nodes[n];
    assert Tidy(node, n, w.issued);
    if i in node.local { assert TidyRecord(node.local[i], i, n, w.issued); }
    ApplyEffect(node, w.catalog, op, i);
  }

  lemma StepFifo(w: World, l: Label, n: Uuid)
    requires Structure(w) && Enabled(w, l) && n in w.nodes
    ensures n in Next(w, l).nodes
    ensures w.nodes[n].fifo + Wrote(w, l, n) == Applied(w, l, n) + Next(w, l).nodes[n].fifo
  {
    if l.PluginCall? && l.n == n {
      PluginFifo(w, n, l.op, l.i);
    } else {
      PlainFifo(w, l, n);
    }
  }

  lemma PlainFifo(w: World, l: Label, n: Uuid)
    requires Enabled(w, l) && n in w.nodes && !(l.PluginCall? && l.n == n)
    ensures n in Next(w, l).nodes
    ensures w.nodes[n].fifo + Wrote(w, l, n) == Applied(w, l, n) + Next(w, l).nodes[n].fifo
  {
    if !((l.Deliver? || l.DefineCall?) && l.n == n) { OtherNodesLeft(w, l, n); }
  }

  lemma Regroup<T>(f: seq<T>, wrote: seq<T>, written: seq<T>, applied: seq<T>, f1: seq<T>, delivered: seq<T>,
                   f2: seq<T>)
    requires f + wrote == applied + f1 && f1 + written == delivered + f2
    ensures f + (wrote + written) == (applied + delivered) + f2
  {
    assert f + (wrote + written) == (f + wrote) + written == applied + (f1 + written);
    assert applied + (delivered + f2) == (applied + delivered) + f2;
  }

  /** Over every interleaving, what was delivered followed by what is in the FIFO is what was in
      the FIFO followed by what was written: nothing is lost, invented or reordered. */
  lemma {:induction false} DeliveredThenPendingIsWritten(w: World, ls: seq<Label>, n: Uuid)
    requires Structure(w) && Legal(w, ls) && n in w.nodes
    ensures n in Exec(w, ls).nodes
    ensures w.nodes[n].fifo + Written(w, ls, n) == Delivered(w, ls, n) + Exec(w, ls).nodes[n].fifo
    decreases |ls|
  {
    if ls != [] {
      var w1 := Next(w, ls[0]);
      StepFifo(w, ls[0], n);
      StepKeepsStructure(w, ls[0]);
      DeliveredThenPendingIsWritten(w1, ls[1..], n);
      Regroup(w.nodes[n].fifo, Wrote(w, ls[0], n), Written(w1, ls[1..], n), Applied(w, ls[0], n), w1.nodes[n].fifo,
              Delivered(w1, ls[1..], n), Exec(w1, ls[1..]).nodes[n].fifo);
    }
  }

  lemma {:induction false} PendingConcat(a: seq<FDURecord>, b: seq<FDURecord>, i: Uuid)
    ensures Pending(a + b, i) == Pending(a, i) + Pending(b, i)
  {
    if a == [] {
      assert a + b == b;
    } else {
      PendingConcat(a[1..], b, i);
      assert (a + b)[1..] == a[1..] + b && (a + b)[0] == a[0];
    }
  }

  /** The same for the records of one instance. */
  lemma InstanceHistorySplits(w: World, ls: seq<Label>, n: Uuid, i: Uuid)
    requires Init(w) && Legal(w, ls) && n in w.nodes
    ensures n in Exec(w, ls).nodes
    ensures Pending(Written(w, ls, n), i) == Pending(Delivered(w, ls, n), i) + Pending(Exec(w, ls).nodes[n].fifo, i)
  {
    InitStructure(w);
    DeliveredThenPendingIsWritten(w, ls, n);
    assert [] + Written(w, ls, n) == Written(w, ls, n);
    PendingConcat(Delivered(w, ls, n), Exec(w, ls).nodes[n].fifo, i);
  }

  // ---------------------------------------------------------------- lifecycle paths

  /** A path of the lifecycle graph that starts at DEFINED. */
  ghost predicate LegalPath(h: seq<FDURecord>) {
    && (h != [] ==> h[0].status == DEFINED)
    && (forall k | 0 <= k < |h| - 1 :: LegalEdge(h[k].status, h[k + 1].status))
  }

  lemma PathPrefix(h: seq<FDURecord>, a: seq<FDURecord>, b: seq<FDURecord>)
    requires LegalPath(h) && h == a + b
    ensures LegalPath(a)
  {
    forall k | 0 <= k < |a| - 1 ensures LegalEdge(a[k].status, a[k + 1].status) {
      assert h[k] == a[k] && h[k + 1] == a[k + 1];
    }
    if a != [] { assert h[0] == a[0]; }
  }

  /** What is known of instance i on node n after history h: its records form a lifecycle path
      that ends in the live record, no other node knows it, and its removal is not under way. */
  ghost predicate HistoryOk(w: World, n: Uuid, i: Uuid, h: seq<FDURecord>) {
    && n in w.nodes && LegalPath(h)
    && (h != [] ==> i in w.issued)
    && (i in w.nodes[n].local ==>
          && h != [] && h[|h| - 1] == w.nodes[n].local[i]
          && (forall k | k in w.nodes && k != n :: AbsentAt(w.nodes[k], i))
          && (i in w.inflight ==> !w.inflight[i].Removing?))
  }

  lemma PathExtends(h: seq<FDURecord>, rec: FDURecord)
    requires LegalPath(h) && (if h == [] then rec.status == DEFINED else LegalEdge(h[|h| - 1].status, rec.status))
    ensures LegalPath(h + [rec])
  {
    var p := h + [rec];
    forall k | 0 <= k < |p| - 1 ensures LegalEdge(p[k].status, p[k + 1].status) {
      if k < |h| - 1 { assert p[k] == h[k] && p[k + 1] == h[k + 1]; }
    }
  }

  lemma HistoryKept(w: World, w': World, n: Uuid, i: Uuid, h: seq<FDURecord>)
    requires HistoryOk(w, n, i, h) && SameFor(w, w', i) && w.issued <= w'.issued
    ensures HistoryOk(w', n, i, h)
  {
    forall k | k in w.nodes ensures ViewSame(w.nodes[k], w'.nodes[k], i) {}
    assert ViewSame(w.nodes[n], w'.nodes[n], i);
    forall k | k in w.nodes && k != n && AbsentAt(w.nodes[k], i) ensures AbsentAt(w'.nodes[k], i) {
      assert ViewSame(w.nodes[k], w'.nodes[k], i);
    }
  }

  /** A step about another instance writes nothing about this one. */
  lemma WroteElsewhere(w: World, l: Label, n: Uuid, i: Uuid)
    requires Structure(w) && Enabled(w, l) && Subject(w, l) != Some(i)
    ensures Pending(Wrote(w, l, n), i) == []
  {
    match l
    case PluginCall(k, op, j) =>
      if k == n { PluginFifo(w, n, op, j); PendingAre(Wrote(w, l, n), i); EmptyIff(Pending(Wrote(w, l, n), i)); }
    case _ =>
  }

  /** A step about the instance extends its history by what it wrote. */
  lemma StepHistory(w: World, l: Label, n: Uuid, i: Uuid, h: seq<FDURecord>)
    requires Structure(w) && Enabled(w, l) && HistoryOk(w, n, i, h)
    ensures HistoryOk(Next(w, l), n, i, h + Pending(Wrote(w, l, n), i))
  {
    if Subject(w, l) != Some(i) {
      StepElsewhere(w, l, i);
      StepIssues(w, l);
      HistoryKept(w, Next(w, l), n, i, h);
      WroteElsewhere(w, l, n, i);
      assert h + [] == h;
    } else {
      match l
      case Deliver(k) => DeliverHistory(w, k, n, i, h);
      case DefineCall(k, fdu, _) => DefineHistory(w, k, fdu, n, i, h);
      case PluginCall(k, op, _) => PluginHistory(w, k, op, n, i, h);
      case Return(_) => assert h + [] == h; OwnStepHistory(w, Next(w, l), n, i, h);
      case RemoveRecord(_) => assert h + [] == h; OwnStepHistory(w, Next(w, l), n, i, h);
    }
  }

  /** Steps that only end a call or remove a global record. */
  lemma OwnStepHistory(w: World, w': World, n: Uuid, i: Uuid, h: seq<FDURecord>)
    requires HistoryOk(w, n, i, h) && w'.nodes == w.nodes && w'.issued == w.issued && i !in w'.inflight
    ensures HistoryOk(w', n, i, h)
  {
  }

  lemma DeliverHistory(w: World, k: Uuid, n: Uuid, i: Uuid, h: seq<FDURecord>)
    requires HistoryOk(w, n, i, h) && Enabled(w, Deliver(k)) && w.nodes[k].fifo[0].uuid == i
    ensures HistoryOk(Next(w, Deliver(k)), n, i, h + Pending(Wrote(w, Deliver(k), n), i))
  {
    assert h + [] == h;
    assert !AbsentAt(w.nodes[k], i);
    var w' := Next(w, Deliver(k));
    forall j | j in w.nodes && j != n && AbsentAt(w.nodes[j], i) ensures AbsentAt(w'.nodes[j], i) {
    }
  }

  lemma DefineHistory(w: World, k: Uuid, fdu: Uuid, n: Uuid, i: Uuid, h: seq<FDURecord>)
    requires Structure(w) && Enabled(w, DefineCall(k, fdu, i)) && HistoryOk(w, n, i, h)
    ensures HistoryOk(Next(w, DefineCall(k, fdu, i)), n, i, h + Pending(Wrote(w, DefineCall(k, fdu, i), n), i))
  {
    NoHistoryYet(w, n, i, h);
    DefinedHistory(w, Next(w, DefineCall(k, fdu, i)), k, fdu, n, i, Wrote(w, DefineCall(k, fdu, i), n));
  }

  lemma NoHistoryYet(w: World, n: Uuid, i: Uuid, h: seq<FDURecord>)
    requires Structure(w) && HistoryOk(w, n, i, h) && i !in w.issued
    ensures h == [] && AbsentEverywhere(w, i)
  {
    UndrawnAbsent(w, i);
  }

  /** The history of an instance begins, on the node that defines it, with the defined record. */
  lemma DefinedHistory(w: World, w': World, k: Uuid, fdu: Uuid, n: Uuid, i: Uuid, wrote: seq<FDURecord>)
    requires n in w.nodes && k in w.nodes && AbsentEverywhere(w, i)
    requires w'.nodes == w.nodes[k := Define(w.nodes[k], k, fdu, i).0]
    requires i in w'.inflight && w'.inflight[i].Await? && i in w'.issued
    requires wrote == if k == n then [Define(w.nodes[k], k, fdu, i).1.value] else []
    ensures HistoryOk(w', n, i, [] + Pending(wrote, i))
  {
    assert AbsentAt(w.nodes[n], i);
    forall j | j in w'.nodes && j != k ensures AbsentAt(w'.nodes[j], i) {
      assert AbsentAt(w.nodes[j], i);
    }
    if k == n {
      assert Pending(wrote, i) == wrote && [] + wrote == wrote;
    }
  }

  /** A UUID that was never drawn is in no store and no FIFO. */
  lemma UndrawnAbsent(w: World, u: Uuid)
    requires Structure(w) && u !in w.issued
    ensures AbsentEverywhere(w, u)
  {
    forall n | n in w.nodes ensures AbsentAt(w.nodes[n], u) {
      var node := w.nodes[n];
      assert Tidy(node, n, w.issued);
      assert forall j | j in node.local :: TidyRecord(node.local[j], j, n, w.issued);
      PendingAre(node.fifo, u);
      forall rec ensures rec !in Pending(node.fifo, u) {
        if rec in node.fifo {
          var k :| 0 <= k < |node.fifo| && node.fifo[k] == rec;
          assert TidyRecord(node.fifo[k], node.fifo[k].uuid, n, w.issued);
        }
      }
      EmptyIff(Pending(node.fifo, u));
    }
  }

  lemma PluginEffect(w: World, k: Uuid, op: PluginOp, i: Uuid)
    requires Structure(w) && Enabled(w, PluginCall(k, op, i))
    ensures var (m, r) := Apply(w.nodes[k], w.catalog, op, i);
      && (r.Err? ==> m == w.nodes[k].(net := m.net))
      && (r.Ok? ==> i in w.nodes[k].local)
      && (r.Ok? && op.Undefine? ==> i !in m.local)
      && (r.Ok? && !op.Undefine? ==> i in m.local && PutRecord(w.nodes[k], m, i, CallAfter(k, op).status))
  {
    var node := w.nodes[k];
    assert Tidy(node, k, w.issued);
    if i in node.local { assert TidyRecord(node.local[i], i, k, w.issued); }
    ApplyEffect(node, w.catalog, op, i);
  }

  lemma PluginHistory(w: World, k: Uuid, op: PluginOp, n: Uuid, i: Uuid, h: seq<FDURecord>)
    requires Structure(w) && Enabled(w, PluginCall(k, op, i)) && HistoryOk(w, n, i, h)
    ensures HistoryOk(Next(w, PluginCall(k, op, i)), n, i, h + Pending(Wrote(w, PluginCall(k, op, i), n), i))
  {
    var w' := Next(w, PluginCall(k, op, i));
    StepIssues(w, PluginCall(k, op, i));
    PluginEffect(w, k, op, i);
    var (m, r) := Apply(w.nodes[k], w.catalog, op, i);
    if k != n {
      OtherNodesLeft(w, PluginCall(k, op, i), n);
      assert h + [] == h;
      OtherNodeHistory(w, w', k, m, r.Ok?, n, i, h);
    } else {
      OwnNodeHistory(w, w', n, m, r, op, i, h);
    }
  }

  /** A plugin call on another node: the instance is not there, so the call fails there. */
  lemma OtherNodeHistory(w: World, w': World, k: Uuid, m: Node, ok: bool, n: Uuid, i: Uuid, h: seq<FDURecord>)
    requires HistoryOk(w, n, i, h) && k in w.nodes && k != n && w'.nodes == w.nodes[k := m] && w.issued <= w'.issued
    requires ok ==> i in w.nodes[k].local
    requires !ok ==> w'.inflight == w.inflight && m == w.nodes[k].(net := m.net)
    ensures HistoryOk(w', n, i, h)
  {
    if i in w.nodes[n].local { assert AbsentAt(w.nodes[k], i); }
    forall j | j in w.nodes && j != n && AbsentAt(w.nodes[j], i) ensures AbsentAt(w'.nodes[j], i) || ok {
    }
  }

  lemma OwnNodeHistory(w: World, w': World, n: Uuid, m: Node, r: Result<Uuid>, op: PluginOp, i: Uuid, h: seq<FDURecord>)
    requires HistoryOk(w, n, i, h) && w'.nodes == w.nodes[n := m] && w.issued <= w'.issued
    requires r.Err? ==> m == w.nodes[n].(net := m.net) && w'.inflight == w.inflight
    requires r.Ok? && op.Undefine? ==> i !in m.local
    requires r.Ok? && !op.Undefine? ==> i in w.nodes[n].local && i in m.local
    requires r.Ok? && !op.Undefine? ==> w'.inflight == w.inflight[i := CallAfter(n, op)]
    requires r.Ok? && !op.Undefine? ==> PutRecord(w.nodes[n], m, i, CallAfter(n, op).status)
    ensures HistoryOk(w', n, i, h + Pending(if r.Ok? && !op.Undefine? && i in m.local then [m.local[i]] else [], i))
  {
    assert h + [] == h;
    forall j | j in w.nodes && j != n && AbsentAt(w.nodes[j], i) ensures AbsentAt(w'.nodes[j], i) {
    }
    if r.Ok? && !op.Undefine? {
      assert Pending([m.local[i]], i) == [m.local[i]];
      PathExtends(h, m.local[i]);
    }
  }

  lemma {:induction false} RunHistory(w: World, ls: seq<Label>, n: Uuid, i: Uuid, h: seq<FDURecord>)
    requires Structure(w) && Legal(w, ls) && HistoryOk(w, n, i, h)
    ensures HistoryOk(Exec(w, ls), n, i, h + Pending(Written(w, ls, n), i))
    decreases |ls|
  {
    if ls == [] {
      assert h + [] == h;
    } else {
      StepHistory(w, ls[0], n, i, h);
      StepKeepsStructure(w, ls[0]);
      RunHistory(Next(w, ls[0]), ls[1..], n, i, h + Pending(Wrote(w, ls[0], n), i));
      PendingChunks(h, Wrote(w, ls[0], n), Written(Next(w, ls[0]), ls[1..], n), i);
    }
  }

  lemma PendingChunks(h: seq<FDURecord>, a: seq<FDURecord>, b: seq<FDURecord>, i: Uuid)
    ensures h + Pending(a, i) + Pending(b, i) == h + Pending(a + b, i)
  {
    PendingConcat(a, b, i);
    assert h + Pending(a, i) + Pending(b, i) == h + (Pending(a, i) + Pending(b, i));
  }

  /** In every run from the start, serialised or not, the records a node wrote for an instance
      follow the lifecycle graph from DEFINED and end in the live record; the ones already applied
      to the global store are a prefix, hence a lifecycle path too. */
  lemma HistoriesAreLifecycles(w: World, ls: seq<Label>, n: Uuid, i: Uuid)
    requires Init(w) && Legal(w, ls) && n in w.nodes
    ensures var (w', written) := (Exec(w, ls), Pending(Written(w, ls, n), i));
      && n in w'.nodes && LegalPath(written) && LegalPath(Pending(Delivered(w, ls, n), i))
      && written == Pending(Delivered(w, ls, n), i) + Pending(w'.nodes[n].fifo, i)
      && (i in w'.nodes[n].local ==> written != [] && written[|written| - 1] == w'.nodes[n].local[i])
  {
    InitStructure(w);
    RunHistory(w, ls, n, i, []);
    InstanceHistorySplits(w, ls, n, i);
    var written := Pending(Written(w, ls, n), i);
    assert [] + written == written;
    PathPrefix(written, Pending(Delivered(w, ls, n), i), Pending(Exec(w, ls).nodes[n].fifo, i));
  }

  // ---------------------------------------------------------------- convergence

  /** While instance i lives on node n, the global record is the last one delivered from n. */
  ghost predicate GlobalOk(w: World, n: Uuid, i: Uuid, d: seq<FDURecord>) {
    && n in w.nodes
    && (d != [] ==> i in w.issued)
    && (i in w.nodes[n].local && d != [] ==> i in w.records && w.records[i] == d[|d| - 1])
  }

  lemma GlobalKept(w: World, w': World, n: Uuid, i: Uuid, d: seq<FDURecord>)
    requires GlobalOk(w, n, i, d) && SameFor(w, w', i) && w.issued <= w'.issued
    ensures GlobalOk(w', n, i, d)
  {
    assert ViewSame(w.nodes[n], w'.nodes[n], i);
  }

  lemma AppliedElsewhere(w: World, l: Label, n: Uuid, i: Uuid)
    requires Enabled(w, l) && Subject(w, l) != Some(i)
    ensures Pending(Applied(w, l, n), i) == []
  {
    if l.Deliver? && l.n == n {
      var rec := w.nodes[n].fifo[0];
      assert Applied(w, l, n) == [rec] && [rec][1..] == [];
    }
  }

  lemma StepGlobal(w: World, l: Label, n: Uuid, i: Uuid, h: seq<FDURecord>, d: seq<FDURecord>)
    requires Structure(w) && Enabled(w, l) && HistoryOk(w, n, i, h) && GlobalOk(w, n, i, d)
    ensures GlobalOk(Next(w, l), n, i, d + Pending(Applied(w, l, n), i))
  {
    if Subject(w, l) != Some(i) {
      StepIssues(w, l);
      assert d + [] == d;
      StepElsewhere(w, l, i);
      GlobalKept(w, Next(w, l), n, i, d);
      AppliedElsewhere(w, l, n, i);
    } else if l.Deliver? {
      DeliverGlobal(w, l.n, n, i, h, d);
    } else {
      OwnStepGlobal(w, l, n, i, h, d);
    }
  }

  /** A step about the instance itself that delivers nothing. */
  lemma OwnStepGlobal(w: World, l: Label, n: Uuid, i: Uuid, h: seq<FDURecord>, d: seq<FDURecord>)
    requires Structure(w) && Enabled(w, l) && HistoryOk(w, n, i, h) && GlobalOk(w, n, i, d)
    requires Subject(w, l) == Some(i) && !l.Deliver?
    ensures GlobalOk(Next(w, l), n, i, d + Pending(Applied(w, l, n), i))
  {
    StepIssues(w, l);
    assert d + [] == d;
    if l.PluginCall? { PluginGlobal(w, l.n, l.op, n, i); }
  }

  lemma DeliverGlobal(w: World, k: Uuid, n: Uuid, i: Uuid, h: seq<FDURecord>, d: seq<FDURecord>)
    requires Structure(w) && Enabled(w, Deliver(k)) && w.nodes[k].fifo[0].uuid == i
    requires HistoryOk(w, n, i, h) && GlobalOk(w, n, i, d)
    ensures GlobalOk(Next(w, Deliver(k)), n, i, d + Pending(Applied(w, Deliver(k), n), i))
  {
    assert d + [] == d;
    assert !AbsentAt(w.nodes[k], i);
    assert Tidy(w.nodes[k], k, w.issued);
    assert TidyRecord(w.nodes[k].fifo[0], w.nodes[k].fifo[0].uuid, k, w.issued);
    assert Pending([w.nodes[k].fifo[0]], i) == [w.nodes[k].fifo[0]];
  }

  lemma PluginGlobal(w: World, k: Uuid, op: PluginOp, n: Uuid, i: Uuid)
    requires Structure(w) && Enabled(w, PluginCall(k, op, i)) && n in w.nodes
    ensures i in Next(w, PluginCall(k, op, i)).nodes[n].local ==> i in w.nodes[n].local
  {
    PluginEffect(w, k, op, i);
  }

  lemma {:induction false} RunGlobal(w: World, ls: seq<Label>, n: Uuid, i: Uuid, h: seq<FDURecord>, d: seq<FDURecord>)
    requires Structure(w) && Legal(w, ls) && HistoryOk(w, n, i, h) && GlobalOk(w, n, i, d)
    ensures GlobalOk(Exec(w, ls), n, i, d + Pending(Delivered(w, ls, n), i))
    decreases |ls|
  {
    if ls == [] {
      assert d + [] == d;
    } else {
      StepHistory(w, ls[0], n, i, h);
      StepGlobal(w, ls[0], n, i, h, d);
      StepKeepsStructure(w, ls[0]);
      RunGlobal(Next(w, ls[0]), ls[1..], n, i, h + Pending(Wrote(w, ls[0], n), i),
                d + Pending(Applied(w, ls[0], n), i));
      PendingChunks(d, Applied(w, ls[0], n), Delivered(Next(w, ls[0]), ls[1..], n), i);
    }
  }

  /** In every run, serialised or not: while an instance lives, its global record is the last of
      its records that was delivered, and once nothing about it is pending the global store agrees
      with the local one. */
  lemma GlobalConverges(w: World, ls: seq<Label>, n: Uuid, i: Uuid)
    requires Init(w) && Legal(w, ls) && n in w.nodes
    ensures var (w', delivered) := (Exec(w, ls), Pending(Delivered(w, ls, n), i));
      && n in w'.nodes
      && (i in w'.nodes[n].local && delivered != [] ==> i in w'.records && w'.records[i] == delivered[|delivered| - 1])
      && (i in w'.nodes[n].local && Pending(w'.nodes[n].fifo, i) == [] ==>
            i in w'.records && w'.records[i] == w'.nodes[n].local[i])
  {
    DeliveredIsGlobal(w, ls, n, i);
    HistoriesAreLifecycles(w, ls, n, i);
    LastDelivered(Exec(w, ls), n, i, Pending(Written(w, ls, n), i), Pending(Delivered(w, ls, n), i));
  }

  lemma LastDelivered(w: World, n: Uuid, i: Uuid, written: seq<FDURecord>, delivered: seq<FDURecord>)
    requires n in w.nodes && GlobalOk(w, n, i, delivered) && written == delivered + Pending(w.nodes[n].fifo, i)
    requires i in w.nodes[n].local ==> written != [] && written[|written| - 1] == w.nodes[n].local[i]
    ensures i in w.nodes[n].local && delivered != [] ==> i in w.records && w.records[i] == delivered[|delivered| - 1]
    ensures i in w.nodes[n].local && Pending(w.nodes[n].fifo, i) == [] ==>
              i in w.records && w.records[i] == w.nodes[n].local[i]
  {
    assert delivered + [] == delivered;
  }

  lemma DeliveredIsGlobal(w: World, ls: seq<Label>, n: Uuid, i: Uuid)
    requires Init(w) && Legal(w, ls) && n in w.nodes
    ensures GlobalOk(Exec(w, ls), n, i, Pending(Delivered(w, ls, n), i))
  {
    InitStructure(w);
    RunGlobal(w, ls, n, i, [], []);
    var delivered := Pending(Delivered(w, ls, n), i);
    assert [] + delivered == delivered;
  }

  // ---------------------------------------------------------------- deletions

  /** The instance is nowhere: local stores, caches, FIFOs, the global store, calls in flight. */
  ghost predicate Gone(w: World, i: Uuid) {
    && i in w.issued && i !in w.records && i !in w.inflight
    && (forall n | n in w.nodes :: AbsentAt(w.nodes[n], i) && i !in w.nodes[n].cache)
  }

  /** No step is about an instance that is gone, except a plugin call that must fail. */
  lemma GoneElsewhere(w: World, l: Label, i: Uuid)
    requires Structure(w) && Gone(w, i) && Enabled(w, l)
    ensures SameFor(w, Next(w, l), i)
  {
    if l.Deliver? { assert AbsentAt(w.nodes[l.n], i); }
    if l.PluginCall? && l.i == i {
      GonePlugin(w, l.n, l.op, i);
    } else {
      StepElsewhere(w, l, i);
    }
  }

  lemma GonePlugin(w: World, n: Uuid, op: PluginOp, i: Uuid)
    requires Structure(w) && Gone(w, i) && Enabled(w, PluginCall(n, op, i))
    ensures SameFor(w, Next(w, PluginCall(n, op, i)), i)
  {
    assert AbsentAt(w.nodes[n], i);
    PluginEffect(w, n, op, i);
    OneNodeElsewhere(w, Next(w, PluginCall(n, op, i)), n, Apply(w.nodes[n], w.catalog, op, i).0, i);
  }

  lemma GoneStays(w: World, l: Label, i: Uuid)
    requires Structure(w) && Gone(w, i) && Enabled(w, l)
    ensures Gone(Next(w, l), i)
  {
    GoneElsewhere(w, l, i);
    StepKeepsStructure(w, l);
    StepIssues(w, l);
    forall n | n in w.nodes ensures AbsentAt(Next(w, l).nodes[n], i) && i !in Next(w, l).nodes[n].cache {
      assert ViewSame(w.nodes[n], Next(w, l).nodes[n], i) && AbsentAt(w.nodes[n], i);
      assert Tidy(Next(w, l).nodes[n], n, Next(w, l).issued);
    }
  }

  lemma {:induction false} GoneForever(w: World, ls: seq<Label>, i: Uuid)
    requires Structure(w) && Gone(w, i) && Legal(w, ls)
    ensures Gone(Exec(w, ls), i)
    decreases |ls|
  {
    if ls != [] {
      GoneStays(w, ls[0], i);
      StepKeepsStructure(w, ls[0]);
      GoneForever(Next(w, ls[0]), ls[1..], i);
    }
  }

  /** No resurrection: in a run with serialised operations, once an undefine has removed the
      global record the instance is nowhere, and no continuation of any kind, serialised or
      not, brings it back. */
  lemma NoResurrection(w: World, ls: seq<Label>, i: Uuid, after: seq<Label>)
    requires Init(w) && Legal(w, ls) && SerialRun(w, ls) && Enabled(Exec(w, ls), RemoveRecord(i))
    requires Legal(Next(Exec(w, ls), RemoveRecord(i)), after)
    ensures Gone(Next(Exec(w, ls), RemoveRecord(i)), i)
    ensures Gone(Exec(Next(Exec(w, ls), RemoveRecord(i)), after), i)
  {
    ReachableCoherent(w, ls);
    var w1 := Exec(w, ls);
    RemovedIsGone(w1, i);
    StepKeepsStructure(w1, RemoveRecord(i));
    GoneForever(Next(w1, RemoveRecord(i)), after, i);
  }

  lemma ReachableCoherent(w: World, ls: seq<Label>)
    requires Init(w) && Legal(w, ls) && SerialRun(w, ls)
    ensures Structure(Exec(w, ls)) && Coherent(Exec(w, ls))
  {
    InitStructure(w);
    forall i ensures InstanceOk(w, i) {
      assert forall n | n in w.nodes :: AbsentAt(w.nodes[n], i);
    }
    RunKeepsCoherent(w, ls);
  }

  lemma RemovedIsGone(w: World, i: Uuid)
    requires Structure(w) && Coherent(w) && Enabled(w, RemoveRecord(i))
    ensures Gone(Next(w, RemoveRecord(i)), i)
  {
    assert InstanceOk(w, i) && TidyRecord(w.records[i], i, w.records[i].node, w.issued);
    forall n | n in w.nodes ensures AbsentAt(w.nodes[n], i) && i !in w.nodes[n].cache {
      assert Tidy(w.nodes[n], n, w.issued);
    }
  }

  // ---------------------------------------------------------------- without serialisation

  ghost predicate OnlyDeliveries(ls: seq<Label>) {
    forall l | l in ls :: l.Deliver?
  }

  /** Delivering from a node until a message about the instance has been applied. */
  lemma {:induction false} DeliverUntil(w: World, n: Uuid, i: Uuid) returns (ls: seq<Label>)
    requires n in w.nodes && Pending(w.nodes[n].fifo, i) != []
    ensures Legal(w, ls) && OnlyDeliveries(ls) && i in Exec(w, ls).records
    ensures n in Exec(w, ls).nodes && Pending(Exec(w, ls).nodes[n].fifo, i) == Pending(w.nodes[n].fifo, i)[1..]
    decreases |w.nodes[n].fifo|
  {
    var l := Deliver(n);
    DeliverOnce(w, n, i);
    if w.nodes[n].fifo[0].uuid == i {
      ls := [l];
      OneStep(w, l);
    } else {
      var rest := DeliverUntil(Next(w, l), n, i);
      ls := [l] + rest;
      ExecCons(w, l, rest);
      OnlyDeliveriesCons(l, rest);
    }
  }

  lemma DeliverOnce(w: World, n: Uuid, i: Uuid)
    requires n in w.nodes && Pending(w.nodes[n].fifo, i) != []
    ensures Enabled(w, Deliver(n)) && n in Next(w, Deliver(n)).nodes
    ensures |Next(w, Deliver(n)).nodes[n].fifo| < |w.nodes[n].fifo|
    ensures w.nodes[n].fifo[0].uuid == i ==> i in Next(w, Deliver(n)).records
    ensures Pending(Next(w, Deliver(n)).nodes[n].fifo, i)
      == Pending(w.nodes[n].fifo, i)[if w.nodes[n].fifo[0].uuid == i then 1 else 0..]
  {
  }

  lemma OnlyDeliveriesCons(l: Label, rest: seq<Label>)
    requires l.Deliver? && OnlyDeliveries(rest)
    ensures OnlyDeliveries([l] + rest)
  {
  }

  lemma {:induction false} DeliveriesAddNothing(w: World, ls: seq<Label>, i: Uuid)
    requires Legal(w, ls) && OnlyDeliveries(ls) && i !in w.records
    requires forall n | n in w.nodes :: Pending(w.nodes[n].fifo, i) == []
    ensures i !in Exec(w, ls).records
    decreases |ls|
  {
    if ls != [] {
      assert ls[0] in ls && forall l | l in ls[1..] :: l in ls;
      var n := ls[0].n;
      var w1 := Next(w, ls[0]);
      assert Pending(w.nodes[n].fifo, i) == [];
      forall k | k in w1.nodes ensures Pending(w1.nodes[k].fifo, i) == [] {
        assert Pending(w.nodes[k].fifo, i) == [];
      }
      DeliveriesAddNothing(w1, ls[1..], i);
    }
  }

  /** Without serialisation the removal of a global record can be undone by a late message:
      exactly when one about the instance is still pending on some node. */
  lemma ResurrectionIff(w: World, i: Uuid)
    requires Enabled(w, RemoveRecord(i))
    ensures var w1 := Next(w, RemoveRecord(i));
      (exists ls :: Legal(w1, ls) && OnlyDeliveries(ls) && i in Exec(w1, ls).records)
      <==> (exists n :: n in w.nodes && Pending(w.nodes[n].fifo, i) != [])
  {
    var w1 := Next(w, RemoveRecord(i));
    if exists n :: n in w.nodes && Pending(w.nodes[n].fifo, i) != [] {
      var n :| n in w.nodes && Pending(w.nodes[n].fifo, i) != [];
      var ls := DeliverUntil(w1, n, i);
    } else {
      forall ls | Legal(w1, ls) && OnlyDeliveries(ls) ensures i !in Exec(w1, ls).records {
        DeliveriesAddNothing(w1, ls, i);
      }
    }
  }

  // ---------------------------------------------------------------- what a poll loop sees

  /** A poll for a status never ends on a stale record: in a serialised run it can end exactly
      when the record its own plugin call wrote has been delivered, and that is what it reads. */
  lemma PollEndsOnOwnRecord(w: World, ls: seq<Label>, i: Uuid)
    requires Init(w) && Legal(w, ls) && SerialRun(w, ls)
    requires i in Exec(w, ls).inflight && Exec(w, ls).inflight[i].Await?
    ensures var w' := Exec(w, ls);
      var h := w'.inflight[i].home;
      && h in w'.nodes && i in w'.nodes[h].local && w'.nodes[h].local[i].status == w'.inflight[i].status
      && (Enabled(w', Return(i)) <==> Pending(w'.nodes[h].fifo, i) == [])
      && (Enabled(w', Return(i)) ==> w'.records[i] == w'.nodes[h].local[i])
      && (!Enabled(w', Return(i)) ==> Pending(w'.nodes[h].fifo, i) == [w'.nodes[h].local[i]])
  {
    ReachableCoherent(w, ls);
    assert InstanceOk(Exec(w, ls), i);
  }

  lemma {:induction false} DeliveriesSerial(w: World, ls: seq<Label>)
    requires Legal(w, ls) && OnlyDeliveries(ls)
    ensures SerialRun(w, ls)
    decreases |ls|
  {
    if ls != [] {
      assert ls[0] in ls && forall l | l in ls[1..] :: l in ls;
      DeliveriesSerial(Next(w, ls[0]), ls[1..]);
    }
  }

  lemma {:induction false} DeliveriesKeepCalls(w: World, ls: seq<Label>)
    requires Legal(w, ls) && OnlyDeliveries(ls)
    ensures Exec(w, ls).inflight == w.inflight
    decreases |ls|
  {
    if ls != [] {
      assert ls[0] in ls && forall l | l in ls[1..] :: l in ls;
      DeliveriesKeepCalls(Next(w, ls[0]), ls[1..]);
    }
  }

  /** Progress: in every state reached by a serialised run, every waiting call can be completed by
      deliveries alone. */
  lemma PollCanComplete(w: World, ls: seq<Label>, i: Uuid)
    requires Init(w) && Legal(w, ls) && SerialRun(w, ls)
    requires i in Exec(w, ls).inflight && Exec(w, ls).inflight[i].Await?
    ensures exists more ::
        Legal(Exec(w, ls), more) && OnlyDeliveries(more) && Enabled(Exec(Exec(w, ls), more), Return(i))
  {
    var w1 := Exec(w, ls);
    ReachableCoherent(w, ls);
    PollEndsOnOwnRecord(w, ls, i);
    if Enabled(w1, Return(i)) {
      assert Legal(w1, []) && OnlyDeliveries([]) && Exec(w1, []) == w1;
    } else {
      var h := w1.inflight[i].home;
      var more := DeliverUntil(w1, h, i);
      DeliveriesSerial(w1, more);
      DeliveriesKeepCalls(w1, more);
      RunKeepsCoherent(w1, more);
      assert InstanceOk(Exec(w1, more), i);
      assert Enabled(Exec(w1, more), Return(i));
    }
  }
}
