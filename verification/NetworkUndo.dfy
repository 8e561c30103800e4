/** Which networking operations undo each other, and when. */
module NetworkUndo {
  import opened Model
  import opened Network

  lemma {:induction false} RemoveAppended(s: seq<Uuid>, x: Uuid)
    requires x !in s
    ensures x in s + [x] && RemoveFirst(s + [x], x) == s
  {
    assert x in [x];
    if s != [] {
      assert s == [s[0]] + s[1..];
      RemoveAppended(s[1..], x);
      assert (s + [x])[1..] == s[1..] + [x];
    }
  }

  /** Once x occurs in the list, nothing else follows. */
  predicate OnlyTrailing(s: seq<Uuid>, x: Uuid) {
    forall j, k | 0 <= j <= k < |s| && s[j] == x :: s[k] == x
  }

  /** Appending and then removing the first occurrence gives the list back exactly when nothing else
      follows an occurrence that was there before. */
  lemma {:induction false} RemoveAppendedIff(s: seq<Uuid>, x: Uuid)
    ensures x in s + [x] && (RemoveFirst(s + [x], x) == s <==> OnlyTrailing(s, x))
  {
    assert x in [x];
    if s != [] {
      assert (s + [x])[0] == s[0] && (s + [x])[1..] == s[1..] + [x];
      if s[0] == x {
        ShiftedIff(s, x);
      } else {
        RemoveAppendedIff(s[1..], x);
        assert RemoveFirst(s + [x], x) == [s[0]] + RemoveFirst(s[1..] + [x], x);
        assert s == [s[0]] + s[1..];
        assert OnlyTrailing(s[1..], x) <==> OnlyTrailing(s, x) by { TrailingInTail(s, x); }
      }
    }
  }

  lemma TrailingInTail(s: seq<Uuid>, x: Uuid)
    requires s != [] && s[0] != x
    ensures OnlyTrailing(s[1..], x) <==> OnlyTrailing(s, x)
  {
    if OnlyTrailing(s[1..], x) {
      forall j, k | 0 <= j <= k < |s| && s[j] == x ensures s[k] == x {
        assert s[1..][j - 1] == x && s[1..][k - 1] == s[k];
      }
    }
  }

  /** Dropping a leading x and appending one changes nothing exactly when the list is all x. */
  lemma {:induction false} ShiftedIff(s: seq<Uuid>, x: Uuid)
    requires s != [] && s[0] == x
    ensures s[1..] + [x] == s <==> OnlyTrailing(s, x)
  {
    if s[1..] + [x] == s {
      AllSame(s, x, |s|);
    }
  }

  lemma {:induction false} AllSame(s: seq<Uuid>, x: Uuid, n: nat)
    requires s != [] && s[0] == x && s[1..] + [x] == s && n <= |s|
    ensures forall k | 0 <= k < n :: s[k] == x
  {
    if n > 1 {
      AllSame(s, x, n - 1);
      assert s[n - 2] == (s[1..] + [x])[n - 2];
    }
  }

  // ---------------------------------------------------------------- bridges

  /** u hangs on bridge b and nothing else changed from s to t. */
  ghost predicate Attached(s: Net, t: Net, u: Uuid, b: Uuid) {
    && u in s.interfaces && b in s.interfaces && u != b && s.interfaces[b].kind.BRIDGE?
    && t == s.(interfaces := s.interfaces[u := s.interfaces[u].(parent := Some(b))]
                                         [b := s.interfaces[b].(kind := BRIDGE(s.interfaces[b].kind.childs + [u]))])
  }

  /** Attaching succeeds exactly for a stored interface and a stored bridge; unless they are the
      same it makes the bridge the parent and lists the interface last. */
  lemma AttachEffect(s: Net, u: Uuid, b: Uuid)
    requires SelfKeyed(s)
    ensures AttachInterface(s, u, b).1.Ok? <==> u in s.interfaces && b in s.interfaces && s.interfaces[b].kind.BRIDGE?
    ensures AttachInterface(s, u, b).1.Err? ==> AttachInterface(s, u, b).0 == s
    ensures AttachInterface(s, u, b).1.Ok? && u != b ==> Attached(s, AttachInterface(s, u, b).0, u, b)
  {
  }

  /** Detaching undoes attaching exactly when the interface is not the bridge, had no parent, and the
      bridge's list does not go on after an old entry of it. */
  lemma AttachThenDetachIff(s: Net, u: Uuid, b: Uuid, issued: set<Uuid>)
    requires Wellformed(s, issued) && AttachInterface(s, u, b).1.Ok?
    ensures var t := AttachInterface(s, u, b).0;
      DetachInterface(t, u).1.Ok? && DetachInterface(t, u).0 == s
      <==> u != b && s.interfaces[u].parent == None && OnlyTrailing(s.interfaces[b].kind.childs, u)
  {
    AttachEffect(s, u, b);
    var t := AttachInterface(s, u, b).0;
    if u == b {
      SelfAttached(s, u, issued);
    } else {
      DetachAttached(s, t, u, b);
    }
  }

  /** A bridge attached to itself: detaching does not give the old store back. */
  lemma SelfAttached(s: Net, u: Uuid, issued: set<Uuid>)
    requires Wellformed(s, issued) && AttachInterface(s, u, u).1.Ok?
    ensures var t := AttachInterface(s, u, u).0; !(DetachInterface(t, u).1.Ok? && DetachInterface(t, u).0 == s)
  {
    assert ListedInBridge(s, u);
    var t := AttachInterface(s, u, u).0;
    assert t.interfaces[u].parent == s.interfaces[u].parent;
    var d := DetachInterface(t, u);
    if d.1.Ok? {
      assert d.0.interfaces[u].parent == None;
      assert t.interfaces[u].parent.Some?;
    }
  }

  lemma DetachAttached(s: Net, t: Net, u: Uuid, b: Uuid)
    requires SelfKeyed(s) && Attached(s, t, u, b)
    ensures DetachInterface(t, u).1.Ok?
    ensures DetachInterface(t, u).0 == s
      <==> s.interfaces[u].parent == None && OnlyTrailing(s.interfaces[b].kind.childs, u)
  {
    var childs := s.interfaces[b].kind.childs;
    RemoveAppendedIff(childs, u);
    var d := DetachInterface(t, u).0;
    assert d.interfaces[u] == s.interfaces[u].(parent := None);
    assert d.interfaces[b] == s.interfaces[b].(kind := BRIDGE(RemoveFirst(childs + [u], u)));
    if s.interfaces[u].parent == None && OnlyTrailing(childs, u) {
      assert d.interfaces == s.interfaces;
    }
  }

  /** Such an old entry arises: an interface attached to two bridges in turn stays listed by the
      first one when it is detached, and then another interface is listed after it. */
  lemma OldEntryArises(s: Net, b: Uuid, c: Uuid, u: Uuid, x: Uuid)
    requires SelfKeyed(s) && {b, c, u, x} <= s.interfaces.Keys && NoDup([b, c, u, x])
    requires s.interfaces[b].kind == BRIDGE([]) && s.interfaces[c].kind == BRIDGE([])
    ensures var t := AttachInterface(AttachInterface(s, u, b).0, u, c).0;
      var t' := AttachInterface(DetachInterface(t, u).0, x, b).0;
      && DetachInterface(t, u).1.Ok? && AttachInterface(t', u, b).1.Ok?
      && t'.interfaces[b].kind == BRIDGE([u, x]) && t'.interfaces[u].parent == None && !OnlyTrailing([u, x], u)
  {
    Different(b, c, u, x);
    AttachedTwice(s, b, c, u, x);
    var t := AttachInterface(AttachInterface(s, u, b).0, u, c).0;
    AttachEffect(DetachInterface(t, u).0, x, b);
    assert [u] + [x] == [u, x] && [u, x][0] == u && [u, x][1] == x;
  }

  /** Only the second bridge forgets it. */
  lemma AttachedTwice(s: Net, b: Uuid, c: Uuid, u: Uuid, x: Uuid)
    requires SelfKeyed(s) && {b, c, u, x} <= s.interfaces.Keys && b != c && b != u && c != u && x != u && x != b
    requires s.interfaces[b].kind == BRIDGE([]) && s.interfaces[c].kind == BRIDGE([])
    ensures var (t', r) := DetachInterface(AttachInterface(AttachInterface(s, u, b).0, u, c).0, u);
      && r.Ok? && SelfKeyed(t') && t'.interfaces.Keys == s.interfaces.Keys
      && t'.interfaces[b].kind == BRIDGE([u]) && t'.interfaces[u].parent == None
  {
    AttachEffect(s, u, b);
    var s1 := AttachInterface(s, u, b).0;
    assert s1.interfaces[b].kind == BRIDGE([u]) && s1.interfaces[c].kind == BRIDGE([]);
    AttachEffect(s1, u, c);
    var s2 := AttachInterface(s1, u, c).0;
    assert s2.interfaces[c].kind == BRIDGE([u]) && s2.interfaces[u].parent == Some(c);
    var s3 := DetachInterface(s2, u).0;
    assert s3.interfaces[b].kind == BRIDGE([u]) && s3.interfaces[u].parent == None;
  }

  lemma Different(b: Uuid, c: Uuid, u: Uuid, x: Uuid)
    requires NoDup([b, c, u, x])
    ensures b != c && b != u && b != x && c != u && c != x && u != x
  {
    var all := [b, c, u, x];
    assert all[0] != all[1] && all[0] != all[2] && all[0] != all[3] && all[1] != all[2] && all[1] != all[3]
      && all[2] != all[3];
  }

  // ---------------------------------------------------------------- namespaces

  /** Moving into a namespace and back to the default one gives the store back exactly when the
      interface was in the default one and the namespace's list does not go on after an old entry of
      it. In between it is in the namespace and listed there. */
  lemma MoveThenBackIff(s: Net, u: Uuid, n: Uuid)
    requires SelfKeyed(s) && u in s.interfaces && n in s.namespaces
    ensures var t := MoveInterfaceIntoNamespace(s, u, n).0;
      && t == s.(interfaces := s.interfaces[u := s.interfaces[u].(netNs := Some(n))],
                 namespaces := s.namespaces[n := s.namespaces[n].(interfaces := s.namespaces[n].interfaces + [u])])
      && MoveInterfaceIntoDefaultNamespace(t, u).1.Ok?
      && (MoveInterfaceIntoDefaultNamespace(t, u).0 == s
          <==> s.interfaces[u].netNs == None && OnlyTrailing(s.namespaces[n].interfaces, u))
  {
    var list := s.namespaces[n].interfaces;
    RemoveAppendedIff(list, u);
    var t := MoveInterfaceIntoNamespace(s, u, n).0;
    var d := MoveInterfaceIntoDefaultNamespace(t, u).0;
    assert d.interfaces[u] == s.interfaces[u].(netNs := None);
    assert d.namespaces == s.namespaces[n := s.namespaces[n].(interfaces := RemoveFirst(list + [u], u))];
    assert d.namespaces[n].interfaces == RemoveFirst(list + [u], u);
    if s.interfaces[u].netNs == None && OnlyTrailing(list, u) {
      assert d.interfaces == s.interfaces && d.namespaces == s.namespaces;
    }
  }

  /** Binding puts the interface into the connection point's namespace; unbinding undoes it exactly
      when it was in the default one. The namespace it was in keeps listing it. */
  lemma BindThenUnbindIff(s: Net, u: Uuid, cp: Uuid)
    requires SelfKeyed(s) && u in s.interfaces && cp in s.connectionPoints
    ensures var t := BindInterface(s, u, cp).0;
      && t == s.(interfaces := s.interfaces[u := s.interfaces[u].(netNs := Some(s.connectionPoints[cp].netNs))])
      && UnbindInterface(t, u, cp).1.Ok?
      && (UnbindInterface(t, u, cp).0 == s <==> s.interfaces[u].netNs == None)
  {
    var d := UnbindInterface(BindInterface(s, u, cp).0, u, cp).0;
    assert d.interfaces[u] == s.interfaces[u].(netNs := None);
    if s.interfaces[u].netNs == None {
      assert d.interfaces == s.interfaces;
    }
  }

  // ---------------------------------------------------------------- creating and deleting

  ghost predicate FreshPair(s: Net, d: VethDraw) {
    d.internal != d.external && d.internal !in s.interfaces && d.external !in s.interfaces
  }

  /** Deleting what was just created gives the store back, for every kind. */
  lemma CreateThenDelete(s: Net, name: string, kind: ConfigKind, d: VethDraw)
    requires FreshPair(s, d)
    ensures var (t, r) := CreateVirtualInterface(s, name, kind, d);
      && r.Ok? && r.value.uuid == d.internal && d.internal in t.interfaces
      && t.interfaces.Keys == s.interfaces.Keys + (if kind.VethConfig? then {d.internal, d.external} else {d.internal})
      && DeleteVirtualInterface(t, d.internal) == (s, Ok(r.value))
  {
    var t := CreateVirtualInterface(s, name, kind, d).0;
    assert DeleteVirtualInterface(t, d.internal).0.interfaces == s.interfaces;
  }

  /** What a freshly created interface is and can be used for, by its requested kind: another interface
      can be attached exactly to a bridge, which then has it as its only child, the MACVLAN deletion takes
      exactly a MACVLAN, and exactly a VETH has a partner; the tag of any other kind is kept. */
  ghost predicate UsableAs(t: Net, name: string, kind: ConfigKind, netNs: Option<Uuid>, d: VethDraw, x: Uuid) {
    && d.internal in t.interfaces
    && var v := t.interfaces[d.internal];
    && v.uuid == d.internal && v.ifName == name && v.parent == None && v.netNs == netNs
    && (AttachInterface(t, x, d.internal).1.Ok? <==> kind.BridgeConfig?)
    && (kind.BridgeConfig? ==> HasChild(AttachInterface(t, x, d.internal).0, d.internal, x))
    && (DeleteMacvlanInterface(t, d.internal).1.Ok? <==> kind.MacvlanConfig?)
    && (kind.OtherConfig? <==> v.kind.OTHER?) && (kind.OtherConfig? ==> v.kind.tag == kind.tag)
    && (kind.VethConfig? <==> v.kind.VETH?)
    && (kind.VethConfig? ==>
          && v.kind == VETH(d.external, true)
          && d.external in t.interfaces
          && t.interfaces[d.external]
             == VirtualInterface(d.external, d.externalName, netNs, VETH(d.internal, false), None))
  }

  ghost predicate HasChild(t: Net, b: Uuid, x: Uuid) {
    && b in t.interfaces && t.interfaces[b].kind.BRIDGE? && t.interfaces[b].kind.childs == [x]
    && x in t.interfaces && t.interfaces[x].parent == Some(b)
  }

  lemma CreatedIsUsable(s: Net, name: string, kind: ConfigKind, d: VethDraw, x: Uuid)
    requires SelfKeyed(s) && FreshPair(s, d) && x in s.interfaces
    ensures var (t, r) := CreateVirtualInterface(s, name, kind, d);
      && UsableAs(t, name, kind, None, d, x) && r == Ok(t.interfaces[d.internal])
      && (forall u | u in s.interfaces :: u in t.interfaces && t.interfaces[u] == s.interfaces[u])
      && t.namespaces == s.namespaces && t.connectionPoints == s.connectionPoints
  {
    CreatedKind(CreateVirtualInterface(s, name, kind, d).0, name, kind, None, d, x);
  }

  lemma CreatedKind(t: Net, name: string, kind: ConfigKind, netNs: Option<Uuid>, d: VethDraw, x: Uuid)
    requires d.internal in t.interfaces && t.interfaces[d.internal] == FirstInterface(name, kind, d, netNs)
    requires kind.VethConfig? ==> d.external in t.interfaces && t.interfaces[d.external] == ExternalEnd(d, netNs)
    requires x in t.interfaces && t.interfaces[x].uuid == x && x != d.internal
    ensures UsableAs(t, name, kind, netNs, d, x)
  {
    assert [] + [x] == [x];
  }

  /** In a namespace the same, in that namespace, which lists everything created behind what it listed. */
  lemma CreatedInNamespaceIsUsable(s: Net, name: string, kind: ConfigKind, n: Uuid, d: VethDraw, x: Uuid)
    requires SelfKeyed(s) && FreshPair(s, d) && x in s.interfaces && n in s.namespaces
    ensures var (t, r) := CreateVirtualInterfaceInNamespace(s, name, kind, n, d);
      && UsableAs(t, name, kind, Some(n), d, x) && r == Ok(t.interfaces[d.internal])
      && (forall u | u in s.interfaces :: u in t.interfaces && t.interfaces[u] == s.interfaces[u])
      && t.connectionPoints == s.connectionPoints
      && var created := if kind.VethConfig? then [d.internal, d.external] else [d.internal];
      t.namespaces == s.namespaces[n := s.namespaces[n].(interfaces := s.namespaces[n].interfaces + created)]
  {
    CreatedKind(CreateVirtualInterfaceInNamespace(s, name, kind, n, d).0, name, kind, Some(n), d, x);
  }

  /** The dedicated creations do what the general one does. */
  lemma DedicatedCreations(s: Net, name: string, d: VethDraw)
    ensures CreateVirtualBridge(s, name, d.internal) == CreateVirtualInterface(s, name, BridgeConfig, d)
    ensures CreateMacvlanInterface(s, name, d.internal) == CreateVirtualInterface(s, name, MacvlanConfig, d)
  {
  }

  /** A namespace is created empty, a connection point with its five draws; deleting what was just
      created gives the store back. */
  lemma CreateThenDeleteOthers(s: Net, n: Uuid, d: CpDraw)
    requires n !in s.namespaces
    ensures var (t, r) := CreateNamespace(s, n);
      && r == Ok(NetworkNamespace(n, [])) && n in t.namespaces && t.namespaces[n] == r.value
      && DeleteNamespace(t, n) == (s, r)
    ensures var (t, r) := CreateConnectionPoint(s, d);
      && (r.Ok? <==> d.cp !in s.connectionPoints)
      && (r.Ok? ==>
            && d.cp in t.connectionPoints && t.connectionPoints[d.cp] == r.value
            && [r.value.uuid, r.value.netNs, r.value.bridge, r.value.internalVeth, r.value.externalVeth] == CpDrawIds(d)
            && DeleteConnectionPoint(t, d.cp) == (s, Ok(d.cp)))
  {
    assert DeleteNamespace(CreateNamespace(s, n).0, n).0.namespaces == s.namespaces;
    if d.cp !in s.connectionPoints {
      assert DeleteConnectionPoint(CreateConnectionPoint(s, d).0, d.cp).0.connectionPoints == s.connectionPoints;
    }
  }

  /** The MACVLAN operations: deleting what was just created gives the store back, and on any stored
      interface the deletion does what the general one does exactly when its kind is MACVLAN. */
  lemma CreateThenDeleteMacvlan(s: Net, name: string, u: Uuid)
    requires u !in s.interfaces
    ensures var (t, r) := CreateMacvlanInterface(s, name, u);
      r.Ok? && DeleteMacvlanInterface(t, u) == (s, r) && DeleteVirtualInterface(t, u) == (s, r)
    ensures forall v | v in s.interfaces ::
        DeleteMacvlanInterface(s, v) == DeleteVirtualInterface(s, v) <==> s.interfaces[v].kind.MACVLAN?
  {
    assert DeleteMacvlanInterface(CreateMacvlanInterface(s, name, u).0, u).0.interfaces == s.interfaces;
  }

  /** delete_virtual_bridge undoes create_virtual_bridge exactly when the global store has the bridge
      under its UUID. Where nothing writes interfaces there, it is always answered with NotFound. */
  lemma CreateThenDeleteBridgeIff(s: Net, global: map<Uuid, VirtualInterface>, name: string, u: Uuid)
    requires u !in s.interfaces
    ensures var t := CreateVirtualBridge(s, name, u).0;
      DeleteVirtualBridge(t, global, u).1.Ok? && DeleteVirtualBridge(t, global, u).0 == s
      <==> u in global && global[u].kind.BRIDGE?
    ensures forall t, v :: DeleteVirtualBridge(t, map[], v) == (t, Err(NotFound))
  {
    var t := CreateVirtualBridge(s, name, u).0;
    assert RemoveInterface(t, u).interfaces == s.interfaces;
  }

  /** Renaming changes the name and nothing else, so the old name gives the store back, and a second
      renaming hides the first. */
  lemma RenameThenBack(s: Net, u: Uuid, name: string, other: string)
    requires SelfKeyed(s) && u in s.interfaces
    ensures var t := RenameVirtualInterface(s, u, name).0;
      && RenameVirtualInterface(t, u, s.interfaces[u].ifName).0 == s
      && RenameVirtualInterface(t, u, other).0 == RenameVirtualInterface(s, u, other).0
      && t.interfaces[u].ifName == name && t.interfaces - {u} == s.interfaces - {u}
  {
    var t := RenameVirtualInterface(s, u, name).0;
    assert RenameVirtualInterface(t, u, s.interfaces[u].ifName).0.interfaces == s.interfaces;
  }

  /** In a namespace, deleting what was just created gives the interfaces back, but the whole store
      exactly when it was not a VETH pair: the namespace goes on listing the outer end. */
  lemma CreateThenDeleteInNamespaceIff(s: Net, name: string, kind: ConfigKind, n: Uuid, d: VethDraw)
    requires SelfKeyed(s) && n in s.namespaces && FreshPair(s, d) && d.internal !in s.namespaces[n].interfaces
    ensures var t := CreateVirtualInterfaceInNamespace(s, name, kind, n, d).0;
      var u := DeleteVirtualInterfaceInNamespace(t, d.internal, n);
      && u.1.Ok? && u.0.interfaces == s.interfaces
      && (u.0 == s <==> !kind.VethConfig?)
      && (kind.VethConfig? ==> u.0.namespaces[n].interfaces == s.namespaces[n].interfaces + [d.external])
  {
    var list := s.namespaces[n].interfaces;
    var t := CreateVirtualInterfaceInNamespace(s, name, kind, n, d).0;
    if kind.VethConfig? {
      RemoveFromMiddle(list, list + [d.internal, d.external], d.internal, d.external);
    } else {
      RemoveAppended(list, d.internal);
    }
    var u := DeleteVirtualInterfaceInNamespace(t, d.internal, n).0;
    assert u.interfaces == s.interfaces;
    assert !kind.VethConfig? ==> u.namespaces == s.namespaces;
  }

  /** Removal looks at the front of a list first. */
  lemma {:induction false} RemoveInFront(s: seq<Uuid>, tail: seq<Uuid>, x: Uuid)
    requires x in s
    ensures x in s + tail && RemoveFirst(s + tail, x) == RemoveFirst(s, x) + tail
  {
    assert s == [s[0]] + s[1..];
    assert (s + tail)[0] == s[0] && (s + tail)[1..] == s[1..] + tail;
    if s[0] != x {
      RemoveInFront(s[1..], tail, x);
    }
  }

  lemma RemoveFromMiddle(s: seq<Uuid>, all: seq<Uuid>, x: Uuid, y: Uuid)
    requires x !in s && all == s + [x, y]
    ensures x in all && RemoveFirst(all, x) == s + [y]
  {
    var front := s + [x];
    assert all == front + [y];
    RemoveAppended(s, x);
    RemoveInFront(front, [y], x);
  }
}
