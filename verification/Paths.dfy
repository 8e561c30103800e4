/** The string paths of the two stores and the selectors that read them back. */
module Paths {
  import opened Model

  // ---------------------------------------------------------------- joining and splitting

  /** Chunks as a path: each with a slash before it. */
  function Join(chunks: seq<string>): string {
    if chunks == [] then "" else "/" + chunks[0] + Join(chunks[1..])
  }

  /** The first slash of s at or after k, or the end. */
  function NextSlash(s: string, k: nat): (e: nat)
    requires k <= |s|
    ensures k <= e <= |s|
    ensures e < |s| ==> s[e] == '/'
    ensures forall j | k <= j < e :: s[j] != '/'
    decreases |s| - k
  {
    if k == |s| || s[k] == '/' then k else NextSlash(s, k + 1)
  }

  /** The chunks of a path. */
  function Split(s: string): seq<string> {
    if s == "" then []
    else
      var e := NextSlash(s, 1);
      [s[1..e]] + Split(s[e..])
  }

  /** No slash and no star. */
  predicate Plain(c: string) {
    forall k | 0 <= k < |c| :: c[k] != '/' && c[k] != '*'
  }

  predicate NoSlash(c: string) {
    forall k | 0 <= k < |c| :: c[k] != '/'
  }

  lemma JoinStart(chunks: seq<string>)
    ensures chunks == [] ==> Join(chunks) == ""
    ensures chunks != [] ==> Join(chunks) != "" && Join(chunks)[0] == '/'
  {
  }

  /** Splitting undoes joining. */
  lemma {:induction false} SplitJoin(chunks: seq<string>)
    requires AllNoSlash(chunks)
    ensures Split(Join(chunks)) == chunks
  {
    if chunks != [] {
      var c, rest := chunks[0], Join(chunks[1..]);
      var s := Join(chunks);
      JoinStart(chunks[1..]);
      assert s == "/" + c + rest;
      var e := NextSlash(s, 1);
      assert forall j | 1 <= j < 1 + |c| :: s[j] == c[j - 1];
      assert rest != "" ==> s[1 + |c|] == '/';
      assert e == 1 + |c|;
      assert s[1..e] == c && s[e..] == rest;
      SplitJoin(chunks[1..]);
    }
  }

  /** Joining undoes splitting, on anything that starts with a slash. */
  lemma {:induction false} JoinSplit(s: string)
    requires s == "" || s[0] == '/'
    ensures Join(Split(s)) == s
    decreases |s|
  {
    if s != "" {
      var e := NextSlash(s, 1);
      JoinSplit(s[e..]);
      assert s == "/" + s[1..e] + s[e..];
      assert Split(s)[1..] == Split(s[e..]);
    }
  }

  // ---------------------------------------------------------------- addresses

  /** Addresses in the global store of one system and tenant. An id that is None is the star of a
      selector. Under a node the families are those of its local store. */
  datatype GlobalAddress =
    | NodeAt(node: Option<Uuid>, l: LocalAddress)
    | FduAt(fdu: Option<Uuid>)
    | FduInstanceAt(fdu: Option<Uuid>, instance: Option<Uuid>)
    | EntityAt(entity: Option<Uuid>)
    | EntityInstanceAt(entity: Option<Uuid>, instance: Option<Uuid>)

  /** Addresses in one node's local store. Neighbours are read through selectors only. */
  datatype LocalAddress =
    | InfoAt
    | ConfAt
    | StatusAt
    | PluginAt(plugin: Option<Uuid>)
    | InstanceAt(fdu: Option<Uuid>, instance: Option<Uuid>)
    | VnetAt(vnet: Option<Uuid>)
    | ConnectionPointAt(cp: Option<Uuid>)
    | VifaceAt(viface: Option<Uuid>)
    | NetnsAt(netns: Option<Uuid>)
    | NeighborsAt(neighbor: Option<Uuid>)

  datatype Address = GlobalA(sys: Uuid, tenant: Uuid, g: GlobalAddress) | LocalA(node: Uuid, l: LocalAddress)

  function Chunk(id: Option<Uuid>): string {
    if id.Some? then id.value.text else "*"
  }

  function GlobalTail(g: GlobalAddress): seq<string> {
    match g
    case NodeAt(n, l) => ["nodes", Chunk(n)] + LocalTail(l)
    case FduAt(f) => ["catalog", "fdu", Chunk(f), "info"]
    case FduInstanceAt(f, i) => ["records", "fdu", Chunk(f), "instance", Chunk(i), "info"]
    case EntityAt(e) => ["catalog", "entity", Chunk(e), "info"]
    case EntityInstanceAt(e, i) => ["records", "entity", Chunk(e), "instance", Chunk(i), "info"]
  }

  function LocalTail(l: LocalAddress): seq<string> {
    match l
    case InfoAt => ["info"]
    case ConfAt => ["configuration"]
    case StatusAt => ["status"]
    case PluginAt(p) => ["plugins", Chunk(p), "info"]
    case InstanceAt(f, i) => ["fdu", Chunk(f), "instances", Chunk(i), "info"]
    case VnetAt(v) => ["network", Chunk(v), "info"]
    case ConnectionPointAt(c) => ["connection_point", Chunk(c), "info"]
    case VifaceAt(v) => ["viface", Chunk(v), "info"]
    case NetnsAt(n) => ["netns", Chunk(n), "info"]
    case NeighborsAt(n) => ["neighbors", Chunk(n), "iface", "*"]
  }

  function Chunks(a: Address): seq<string> {
    match a
    case GlobalA(sys, tenant, g) => ["fos", "global", sys.text, "tenants", tenant.text] + GlobalTail(g)
    case LocalA(node, l) => ["fos", "local", node.text] + LocalTail(l)
  }

  function Render(a: Address): string {
    Join(Chunks(a))
  }

  predicate ConcreteGlobal(g: GlobalAddress) {
    match g
    case NodeAt(n, l) => n.Some? && ConcreteLocal(l)
    case FduAt(f) => f.Some?
    case FduInstanceAt(f, i) => f.Some? && i.Some?
    case EntityAt(e) => e.Some?
    case EntityInstanceAt(e, i) => e.Some? && i.Some?
  }

  predicate ConcreteLocal(l: LocalAddress) {
    match l
    case PluginAt(p) => p.Some?
    case InstanceAt(f, i) => f.Some? && i.Some?
    case VnetAt(v) => v.Some?
    case ConnectionPointAt(c) => c.Some?
    case VifaceAt(v) => v.Some?
    case NetnsAt(n) => n.Some?
    case NeighborsAt(_) => false
    case _ => true
  }

  /** A path rather than a selector: every id is given. */
  predicate Concrete(a: Address) {
    if a.GlobalA? then ConcreteGlobal(a.g) else ConcreteLocal(a.l)
  }

  // ---------------------------------------------------------------- rendering is faithful

  lemma UuidPlain(u: Uuid)
    ensures Plain(u.text) && u.text != "*"
  {
    forall k | 0 <= k < |u.text| ensures u.text[k] != '/' && u.text[k] != '*' {
      assert if k in {8, 13, 18, 23} then u.text[k] == '-' else IsHexDigit(u.text[k]);
    }
  }

  lemma ChunkPlain(id: Option<Uuid>)
    ensures NoSlash(Chunk(id)) && (id.Some? ==> Plain(Chunk(id))) && (Chunk(id) == "*" <==> id.None?)
  {
    if id.Some? { UuidPlain(id.value); }
  }

  ghost predicate AllNoSlash(chunks: seq<string>) {
    forall k | 0 <= k < |chunks| :: NoSlash(chunks[k])
  }

  lemma GlobalTailNoSlash(g: GlobalAddress)
    ensures AllNoSlash(GlobalTail(g))
  {
    match g
    case FduInstanceAt(f, i) => ChunkPlain(f); ChunkPlain(i);
    case EntityInstanceAt(e, i) => ChunkPlain(e); ChunkPlain(i);
    case NodeAt(n, l) => ChunkPlain(n); LocalTailNoSlash(l); NodeTailNoSlash(n, l);
    case FduAt(f) => ChunkPlain(f);
    case EntityAt(e) => ChunkPlain(e);
  }

  lemma NodeTailNoSlash(n: Option<Uuid>, l: LocalAddress)
    requires NoSlash(Chunk(n)) && AllNoSlash(LocalTail(l))
    ensures AllNoSlash(["nodes", Chunk(n)] + LocalTail(l))
  {
    var tail := ["nodes", Chunk(n)] + LocalTail(l);
    forall k | 0 <= k < |tail| ensures NoSlash(tail[k]) {
      if k >= 2 { assert tail[k] == LocalTail(l)[k - 2]; }
    }
  }

  lemma LocalTailNoSlash(l: LocalAddress)
    ensures AllNoSlash(LocalTail(l))
  {
    if l.InstanceAt? {
      ChunkPlain(l.fdu);
      ChunkPlain(l.instance);
    } else if l.NeighborsAt? {
      ChunkPlain(l.neighbor);
    } else {
      ChunkPlain(LocalId(l));
      OneIdNoSlash(l);
    }
  }

  lemma OneIdNoSlash(l: LocalAddress)
    requires !l.InstanceAt? && !l.NeighborsAt? && NoSlash(Chunk(LocalId(l)))
    ensures AllNoSlash(LocalTail(l))
  {
  }

  lemma ChunksNoSlash(a: Address)
    ensures AllNoSlash(Chunks(a))
  {
    if a.GlobalA? {
      UuidPlain(a.sys);
      UuidPlain(a.tenant);
      GlobalTailNoSlash(a.g);
    } else {
      UuidPlain(a.node);
      LocalTailNoSlash(a.l);
    }
  }

  /** Splitting a rendered path or selector gives back its chunks. */
  lemma SplitRender(a: Address)
    ensures Split(Render(a)) == Chunks(a)
  {
    ChunksNoSlash(a);
    SplitJoin(Chunks(a));
  }

  // ---------------------------------------------------------------- selectors are exact

  /** Chunk by chunk equal, where the star matches any one chunk. */
  predicate Matches(selector: seq<string>, path: seq<string>) {
    |selector| == |path| && forall k | 0 <= k < |path| :: selector[k] == "*" || selector[k] == path[k]
  }

  predicate Selects(selector: string, path: string) {
    Matches(Split(selector), Split(path))
  }

  predicate IdCovers(s: Option<Uuid>, id: Option<Uuid>) {
    s.None? || s == id
  }

  predicate GlobalCovers(s: GlobalAddress, g: GlobalAddress) {
    match s
    case NodeAt(n, l) => g.NodeAt? && IdCovers(n, g.node) && LocalCovers(l, g.l)
    case FduAt(f) => g.FduAt? && IdCovers(f, g.fdu)
    case FduInstanceAt(f, i) => g.FduInstanceAt? && IdCovers(f, g.fdu) && IdCovers(i, g.instance)
    case EntityAt(e) => g.EntityAt? && IdCovers(e, g.entity)
    case EntityInstanceAt(e, i) => g.EntityInstanceAt? && IdCovers(e, g.entity) && IdCovers(i, g.instance)
  }

  predicate LocalCovers(s: LocalAddress, l: LocalAddress) {
    match s
    case PluginAt(p) => l.PluginAt? && IdCovers(p, l.plugin)
    case InstanceAt(f, i) => l.InstanceAt? && IdCovers(f, l.fdu) && IdCovers(i, l.instance)
    case VnetAt(v) => l.VnetAt? && IdCovers(v, l.vnet)
    case ConnectionPointAt(c) => l.ConnectionPointAt? && IdCovers(c, l.cp)
    case VifaceAt(v) => l.VifaceAt? && IdCovers(v, l.viface)
    case NetnsAt(n) => l.NetnsAt? && IdCovers(n, l.netns)
    case NeighborsAt(n) => l.NeighborsAt? && IdCovers(n, l.neighbor)
    case _ => l == s
  }

  /** The same family in the same store, and every id that the selector gives. */
  predicate Covers(s: Address, a: Address) {
    match s
    case GlobalA(sys, tenant, g) => a.GlobalA? && a.sys == sys && a.tenant == tenant && GlobalCovers(g, a.g)
    case LocalA(node, l) => a.LocalA? && a.node == node && LocalCovers(l, a.l)
  }

  lemma ChunkMatches(s: Option<Uuid>, id: Option<Uuid>)
    requires id.Some?
    ensures Chunk(s) == "*" || Chunk(s) == Chunk(id) <==> IdCovers(s, id)
  {
    ChunkPlain(s);
  }

  lemma MatchesSplit(s1: seq<string>, s2: seq<string>, p1: seq<string>, p2: seq<string>)
    requires |s1| == |p1|
    ensures Matches(s1 + s2, p1 + p2) <==> Matches(s1, p1) && Matches(s2, p2)
  {
    var s, p := s1 + s2, p1 + p2;
    if Matches(s, p) {
      assert forall k | 0 <= k < |p1| :: s[k] == s1[k] && p[k] == p1[k];
      assert forall k | 0 <= k < |p2| :: s[|p1| + k] == s2[k] && p[|p1| + k] == p2[k];
    }
    if Matches(s1, p1) && Matches(s2, p2) {
      forall k | 0 <= k < |p| ensures s[k] == "*" || s[k] == p[k] {
        if k >= |p1| { assert s[k] == s2[k - |p1|] && p[k] == p2[k - |p1|]; }
      }
    }
  }

  /** Lists of equally many chunks match when their chunks do; written out for the tails. */
  lemma MatchesTwo(a: string, b: string, x: string, y: string)
    ensures Matches([a], [x]) <==> a == "*" || a == x
    ensures Matches([a, b], [x, y]) <==> (a == "*" || a == x) && (b == "*" || b == y)
  {
    assert [a, b][0] == a && [a, b][1] == b && [x, y][0] == x && [x, y][1] == y;
    assert [a][0] == a && [x][0] == x;
  }

  /** A literal chunk, an id, and a literal chunk. */
  lemma MatchesThree(a: string, s: Option<Uuid>, b: string, x: string, id: Option<Uuid>, y: string)
    requires id.Some? && a != "*" && b != "*"
    ensures Matches([a, Chunk(s), b], [x, Chunk(id), y]) <==> a == x && IdCovers(s, id) && b == y
  {
    var p, q := [a, Chunk(s), b], [x, Chunk(id), y];
    assert p[0] == a && p[1] == Chunk(s) && p[2] == b && q[0] == x && q[1] == Chunk(id) && q[2] == y;
    ChunkMatches(s, id);
  }

  lemma MatchesFive(a: string, s: Option<Uuid>, b: string, t: Option<Uuid>, c: string,
                    x: string, id: Option<Uuid>, y: string, jd: Option<Uuid>, z: string)
    requires id.Some? && jd.Some? && a != "*" && b != "*" && c != "*"
    ensures Matches([a, Chunk(s), b, Chunk(t), c], [x, Chunk(id), y, Chunk(jd), z])
       <==> a == x && IdCovers(s, id) && b == y && IdCovers(t, jd) && c == z
  {
    MatchesThree(a, s, b, x, id, y);
    ChunkMatches(t, jd);
    MatchesTwo(Chunk(t), c, Chunk(jd), z);
    MatchesSplit([a, Chunk(s), b], [Chunk(t), c], [x, Chunk(id), y], [Chunk(jd), z]);
    assert [a, Chunk(s), b] + [Chunk(t), c] == [a, Chunk(s), b, Chunk(t), c];
    assert [x, Chunk(id), y] + [Chunk(jd), z] == [x, Chunk(id), y, Chunk(jd), z];
  }

  /** A tail as its length, its literal chunks and its ids. */
  lemma LocalTailMatches(s: LocalAddress, l: LocalAddress)
    requires ConcreteLocal(l)
    ensures Matches(LocalTail(s), LocalTail(l)) <==> LocalCovers(s, l)
  {
    if |LocalTail(s)| == 1 && |LocalTail(l)| == 1 {
      MatchesTwo(LocalTail(s)[0], "", LocalTail(l)[0], "");
    } else if |LocalTail(s)| == 3 && |LocalTail(l)| == 3 {
      MatchesThree(LocalTail(s)[0], LocalId(s), "info", LocalTail(l)[0], LocalId(l), "info");
    } else if s.InstanceAt? && l.InstanceAt? {
      MatchesFive("fdu", s.fdu, "instances", s.instance, "info", "fdu", l.fdu, "instances", l.instance, "info");
    }
  }

  /** The id of an address that has one. */
  function LocalId(l: LocalAddress): Option<Uuid> {
    match l
    case PluginAt(p) => p
    case VnetAt(v) => v
    case ConnectionPointAt(c) => c
    case VifaceAt(v) => v
    case NetnsAt(n) => n
    case _ => None
  }

  lemma MatchesOneMore(a: string, s: seq<string>, x: string, p: seq<string>)
    requires a != "*"
    ensures Matches([a] + s, [x] + p) <==> a == x && Matches(s, p)
  {
    if |s| == |p| {
      MatchesTwo(a, "", x, "");
      MatchesSplit([a], s, [x], p);
    }
  }

  /** The first id of an address in a catalog or among the records. */
  function GlobalId(g: GlobalAddress): Option<Uuid> {
    match g
    case FduAt(f) => f
    case FduInstanceAt(f, _) => f
    case EntityAt(e) => e
    case EntityInstanceAt(e, _) => e
    case NodeAt(n, _) => n
  }

  predicate IsDescriptor(g: GlobalAddress) {
    g.FduAt? || g.EntityAt?
  }

  function InstanceId(g: GlobalAddress): Option<Uuid> {
    match g
    case FduInstanceAt(_, i) => i
    case EntityInstanceAt(_, i) => i
    case _ => None
  }

  lemma NodeTailMatches(s: GlobalAddress, g: GlobalAddress)
    requires ConcreteGlobal(g) && s.NodeAt? && g.NodeAt?
    ensures Matches(GlobalTail(s), GlobalTail(g)) <==> GlobalCovers(s, g)
  {
    MatchesTwo("nodes", Chunk(s.node), "nodes", Chunk(g.node));
    ChunkMatches(s.node, g.node);
    LocalTailMatches(s.l, g.l);
    MatchesSplit(["nodes", Chunk(s.node)], LocalTail(s.l), ["nodes", Chunk(g.node)], LocalTail(g.l));
  }

  lemma DescriptorTailMatches(s: GlobalAddress, g: GlobalAddress)
    requires ConcreteGlobal(g) && IsDescriptor(s) && IsDescriptor(g)
    ensures Matches(GlobalTail(s), GlobalTail(g)) <==> GlobalCovers(s, g)
  {
    var a, x := GlobalTail(s)[1], GlobalTail(g)[1];
    MatchesThree(a, GlobalId(s), "info", x, GlobalId(g), "info");
    MatchesOneMore("catalog", [a, Chunk(GlobalId(s)), "info"], "catalog", [x, Chunk(GlobalId(g)), "info"]);
    assert GlobalTail(s) == ["catalog"] + [a, Chunk(GlobalId(s)), "info"];
    assert GlobalTail(g) == ["catalog"] + [x, Chunk(GlobalId(g)), "info"];
  }

  lemma InstanceTail(g: GlobalAddress)
    requires !g.NodeAt? && !IsDescriptor(g)
    ensures GlobalTail(g) == ["records"] + InstanceChunks(g)
  {
  }

  /** The chunks of an instance address behind the first one. */
  function InstanceChunks(g: GlobalAddress): seq<string>
    requires !g.NodeAt? && !IsDescriptor(g)
  {
    [if g.FduInstanceAt? then "fdu" else "entity", Chunk(GlobalId(g)), "instance", Chunk(InstanceId(g)), "info"]
  }

  lemma InstanceTailMatches(s: GlobalAddress, g: GlobalAddress)
    requires ConcreteGlobal(g) && !s.NodeAt? && !IsDescriptor(s) && !g.NodeAt? && !IsDescriptor(g)
    ensures Matches(GlobalTail(s), GlobalTail(g)) <==> GlobalCovers(s, g)
  {
    MatchesFive(InstanceChunks(s)[0], GlobalId(s), "instance", InstanceId(s), "info",
                InstanceChunks(g)[0], GlobalId(g), "instance", InstanceId(g), "info");
    MatchesOneMore("records", InstanceChunks(s), "records", InstanceChunks(g));
    InstanceTail(s);
    InstanceTail(g);
  }

  lemma GlobalTailMatches(s: GlobalAddress, g: GlobalAddress)
    requires ConcreteGlobal(g)
    ensures Matches(GlobalTail(s), GlobalTail(g)) <==> GlobalCovers(s, g)
  {
    if s.NodeAt? && g.NodeAt? {
      NodeTailMatches(s, g);
    } else if IsDescriptor(s) && IsDescriptor(g) {
      DescriptorTailMatches(s, g);
    } else if !s.NodeAt? && !IsDescriptor(s) && !g.NodeAt? && !IsDescriptor(g) {
      InstanceTailMatches(s, g);
    } else {
      TailHead(s);
      TailHead(g);
      assert GlobalTail(s)[0] != "*" && GlobalTail(s)[0] != GlobalTail(g)[0];
    }
  }

  /** The first chunk tells nodes, catalogs and records apart. */
  lemma TailHead(g: GlobalAddress)
    ensures GlobalTail(g) != []
    ensures GlobalTail(g)[0] == if g.NodeAt? then "nodes" else if IsDescriptor(g) then "catalog" else "records"
  {
  }

  lemma GlobalHeadMatches(sys: Uuid, tenant: Uuid, sys': Uuid, tenant': Uuid)
    ensures Matches(["fos", "global", sys.text, "tenants", tenant.text],
                    ["fos", "global", sys'.text, "tenants", tenant'.text])
       <==> sys == sys' && tenant == tenant'
  {
    var s, p := ["global", sys.text, "tenants", tenant.text], ["global", sys'.text, "tenants", tenant'.text];
    MatchesThree("global", Some(sys), "tenants", "global", Some(sys'), "tenants");
    UuidPlain(tenant);
    MatchesTwo(tenant.text, "", tenant'.text, "");
    MatchesSplit(["global", sys.text, "tenants"], [tenant.text], ["global", sys'.text, "tenants"], [tenant'.text]);
    assert s == ["global", sys.text, "tenants"] + [tenant.text]
      && p == ["global", sys'.text, "tenants"] + [tenant'.text];
    MatchesOneMore("fos", s, "fos", p);
    assert ["fos"] + s == ["fos", "global", sys.text, "tenants", tenant.text];
    assert ["fos"] + p == ["fos", "global", sys'.text, "tenants", tenant'.text];
  }

  lemma LocalHeadMatches(node: Uuid, node': Uuid)
    ensures Matches(["fos", "local", node.text], ["fos", "local", node'.text]) <==> node == node'
  {
    UuidPlain(node);
    MatchesTwo("local", node.text, "local", node'.text);
    MatchesOneMore("fos", ["local", node.text], "fos", ["local", node'.text]);
    assert ["fos"] + ["local", node.text] == ["fos", "local", node.text];
    assert ["fos"] + ["local", node'.text] == ["fos", "local", node'.text];
  }

  /** A selector matches a path exactly when the path is of the selector's own family and store and
      has every id that the selector gives. */
  lemma SelectorExact(s: Address, a: Address)
    requires Concrete(a)
    ensures Selects(Render(s), Render(a)) <==> Covers(s, a)
  {
    SplitRender(s);
    SplitRender(a);
    if s.GlobalA? && a.GlobalA? {
      GlobalHeadMatches(s.sys, s.tenant, a.sys, a.tenant);
      GlobalTailMatches(s.g, a.g);
      MatchesSplit(["fos", "global", s.sys.text, "tenants", s.tenant.text], GlobalTail(s.g),
                   ["fos", "global", a.sys.text, "tenants", a.tenant.text], GlobalTail(a.g));
    } else if s.LocalA? && a.LocalA? {
      LocalHeadMatches(s.node, a.node);
      LocalTailMatches(s.l, a.l);
      MatchesSplit(["fos", "local", s.node.text], LocalTail(s.l), ["fos", "local", a.node.text], LocalTail(a.l));
    } else {
      assert Chunks(s)[1] != Chunks(a)[1] && Chunks(s)[1] != "*";
    }
  }

  lemma {:induction false} MatchesSelf(p: seq<string>)
    ensures Matches(p, p)
  {
  }

  lemma LocalCoversItself(s: LocalAddress, l: LocalAddress)
    requires ConcreteLocal(s) && ConcreteLocal(l) && LocalCovers(s, l)
    ensures s == l
  {
  }

  lemma GlobalCoversItself(s: GlobalAddress, g: GlobalAddress)
    requires ConcreteGlobal(s) && ConcreteGlobal(g) && GlobalCovers(s, g)
    ensures s == g
  {
    if s.NodeAt? { LocalCoversItself(s.l, g.l); }
  }

  /** Distinct addresses have distinct paths. */
  lemma RenderInjective(a: Address, b: Address)
    requires Concrete(a) && Concrete(b) && Render(a) == Render(b)
    ensures a == b
  {
    MatchesSelf(Split(Render(a)));
    SelectorExact(a, b);
    if a.GlobalA? {
      GlobalCoversItself(a.g, b.g);
    } else {
      LocalCoversItself(a.l, b.l);
    }
  }

  // ---------------------------------------------------------------- as text

  lemma JoinOne(a: string)
    ensures Join([a]) == "/" + a
  {
    assert [a][1..] == [];
    assert "/" + a + "" == "/" + a;
  }

  lemma JoinMore(a: string, rest: seq<string>)
    ensures Join([a] + rest) == "/" + a + Join(rest)
  {
    assert ([a] + rest)[1..] == rest;
  }

  /** A literal chunk, an id, and what follows. */
  lemma IdText(head: string, a: string, id: string, rest: seq<string>)
    requires head == "/" + a + "/"
    ensures Join([a, id] + rest) == head + id + Join(rest)
  {
    var t := Join(rest);
    assert [a, id] + rest == [a] + ([id] + rest);
    JoinMore(a, [id] + rest);
    JoinMore(id, rest);
    assert "/" + a + ("/" + id + t) == "/" + a + "/" + id + t;
  }

  lemma {:induction false} JoinAppend(a: seq<string>, b: seq<string>)
    ensures Join(a + b) == Join(a) + Join(b)
  {
    if a == [] {
      assert a + b == b;
    } else {
      JoinAppend(a[1..], b);
      assert (a + b)[1..] == a[1..] + b;
    }
  }

  /** What a node's path goes on with behind the node. */
  function LocalText(l: LocalAddress): string {
    match l
    case InfoAt => "/info"
    case ConfAt => "/configuration"
    case StatusAt => "/status"
    case PluginAt(p) => "/plugins/" + Chunk(p) + "/info"
    case InstanceAt(f, i) => "/fdu/" + Chunk(f) + "/instances/" + Chunk(i) + "/info"
    case VnetAt(v) => "/network/" + Chunk(v) + "/info"
    case ConnectionPointAt(c) => "/connection_point/" + Chunk(c) + "/info"
    case VifaceAt(v) => "/viface/" + Chunk(v) + "/info"
    case NetnsAt(n) => "/netns/" + Chunk(n) + "/info"
    case NeighborsAt(n) => "/neighbors/" + Chunk(n) + "/iface/*"
  }

  /** What a global path goes on with behind the tenant. */
  function GlobalText(g: GlobalAddress): string {
    match g
    case NodeAt(n, l) => "/nodes/" + Chunk(n) + LocalText(l)
    case FduAt(f) => "/catalog/fdu/" + Chunk(f) + "/info"
    case FduInstanceAt(f, i) => "/records/fdu/" + Chunk(f) + "/instance/" + Chunk(i) + "/info"
    case EntityAt(e) => "/catalog/entity/" + Chunk(e) + "/info"
    case EntityInstanceAt(e, i) => "/records/entity/" + Chunk(e) + "/instance/" + Chunk(i) + "/info"
  }

  lemma OneIdText(head: string, a: string, id: string)
    requires head == "/" + a + "/"
    ensures Join([a, id, "info"]) == head + id + "/info"
  {
    IdText(head, a, id, ["info"]);
    assert [a, id, "info"] == [a, id] + ["info"];
    JoinOne("info");
    assert "/" + "info" == "/info";
  }

  lemma TwoIdsText(head: string, a: string, id: string, middle: string, b: string, jd: string, tail: string, c: string)
    requires head == "/" + a + "/" && middle == "/" + b + "/" && tail == "/" + c
    ensures Join([a, id, b, jd, c]) == head + id + middle + jd + tail
  {
    IdText(head, a, id, [b, jd] + [c]);
    IdText(middle, b, jd, [c]);
    JoinOne(c);
    assert [a, id, b, jd, c] == [a, id] + ([b, jd] + [c]);
    assert head + id + (middle + jd + tail) == head + id + middle + jd + tail;
  }

  lemma LocalTailText(l: LocalAddress)
    ensures Join(LocalTail(l)) == LocalText(l)
  {
    match l
    case InstanceAt(f, i) => InstanceTailText(f, i);
    case NeighborsAt(n) => NeighborsTailText(n);
    case PluginAt(p) => assert "/" + "plugins" + "/" == "/plugins/"; OneIdText("/plugins/", "plugins", Chunk(p));
    case VnetAt(v) => assert "/" + "network" + "/" == "/network/"; OneIdText("/network/", "network", Chunk(v));
    case ConnectionPointAt(c) => ConnectionPointTailText(c);
    case VifaceAt(v) => assert "/" + "viface" + "/" == "/viface/"; OneIdText("/viface/", "viface", Chunk(v));
    case NetnsAt(n) => assert "/" + "netns" + "/" == "/netns/"; OneIdText("/netns/", "netns", Chunk(n));
    case InfoAt => JoinOne("info"); assert "/" + "info" == "/info";
    case ConfAt => JoinOne("configuration"); assert "/" + "configuration" == "/configuration";
    case StatusAt => JoinOne("status"); assert "/" + "status" == "/status";
  }

  lemma InstanceTailText(f: Option<Uuid>, i: Option<Uuid>)
    ensures Join(LocalTail(InstanceAt(f, i))) == LocalText(InstanceAt(f, i))
  {
    assert "/" + "fdu" + "/" == "/fdu/";
    assert "/" + "instances" + "/" == "/instances/";
    assert "/" + "info" == "/info";
    TwoIdsText("/fdu/", "fdu", Chunk(f), "/instances/", "instances", Chunk(i), "/info", "info");
  }

  lemma NeighborsTailText(n: Option<Uuid>)
    ensures Join(LocalTail(NeighborsAt(n))) == LocalText(NeighborsAt(n))
  {
    assert "/" + "neighbors" + "/" == "/neighbors/";
    IdText("/neighbors/", "neighbors", Chunk(n), ["iface", "*"]);
    JoinMore("iface", ["*"]);
    JoinOne("*");
    assert ["iface"] + ["*"] == ["iface", "*"];
    assert "/" + "iface" + ("/" + "*") == "/iface/*";
    assert LocalTail(NeighborsAt(n)) == ["neighbors", Chunk(n)] + ["iface", "*"];
  }

  lemma ConnectionPointTailText(c: Option<Uuid>)
    ensures Join(LocalTail(ConnectionPointAt(c))) == LocalText(ConnectionPointAt(c))
  {
    assert "/" + "connection_point" + "/" == "/connection_point/";
    OneIdText("/connection_point/", "connection_point", Chunk(c));
  }

  lemma GlobalTailText(g: GlobalAddress)
    ensures Join(GlobalTail(g)) == GlobalText(g)
  {
    match g
    case NodeAt(n, l) => NodeTailText(n, l);
    case FduAt(f) => DescriptorTailText("/catalog/fdu/", "fdu", f);
    case EntityAt(e) => DescriptorTailText("/catalog/entity/", "entity", e);
    case FduInstanceAt(f, i) => RecordTailText("/records/fdu/", "fdu", f, i);
    case EntityInstanceAt(e, i) => RecordTailText("/records/entity/", "entity", e, i);
  }

  lemma NodeTailText(n: Option<Uuid>, l: LocalAddress)
    ensures Join(GlobalTail(NodeAt(n, l))) == GlobalText(NodeAt(n, l))
  {
    assert "/" + "nodes" + "/" == "/nodes/";
    IdText("/nodes/", "nodes", Chunk(n), LocalTail(l));
    LocalTailText(l);
  }

  lemma DescriptorTailText(head: string, a: string, id: Option<Uuid>)
    requires head == "/catalog/" + a + "/"
    ensures Join(["catalog", a, Chunk(id), "info"]) == head + Chunk(id) + "/info"
  {
    OneIdText("/" + a + "/", a, Chunk(id));
    JoinMore("catalog", [a, Chunk(id), "info"]);
    assert ["catalog"] + [a, Chunk(id), "info"] == ["catalog", a, Chunk(id), "info"];
    assert "/" + "catalog" + "/" == "/catalog/";
    assert "/" + "catalog" + ("/" + a + "/" + Chunk(id) + "/info") == head + Chunk(id) + "/info";
  }

  lemma RecordTailText(head: string, a: string, id: Option<Uuid>, jd: Option<Uuid>)
    requires head == "/records/" + a + "/"
    ensures Join(["records", a, Chunk(id), "instance", Chunk(jd), "info"])
         == head + Chunk(id) + "/instance/" + Chunk(jd) + "/info"
  {
    var rest := [a, Chunk(id), "instance", Chunk(jd), "info"];
    var tail := Chunk(id) + "/instance/" + Chunk(jd) + "/info";
    RecordRestText(a, Chunk(id), Chunk(jd));
    JoinMore("records", rest);
    assert ["records"] + rest == ["records", a, Chunk(id), "instance", Chunk(jd), "info"];
    RecordHeadText(head, a, tail);
    Regrouped(head, Chunk(id), "/instance/", Chunk(jd), "/info");
  }

  lemma RecordRestText(a: string, id: string, jd: string)
    ensures Join([a, id, "instance", jd, "info"]) == "/" + a + "/" + (id + "/instance/" + jd + "/info")
  {
    assert "/" + "instance" + "/" == "/instance/";
    assert "/" + "info" == "/info";
    TwoIdsText("/" + a + "/", a, id, "/instance/", "instance", jd, "/info", "info");
    Regrouped("/" + a + "/", id, "/instance/", jd, "/info");
  }

  lemma Regrouped(a: string, b: string, c: string, d: string, e: string)
    ensures a + (b + c + d + e) == a + b + c + d + e
  {
  }

  lemma RecordHeadText(head: string, a: string, tail: string)
    requires head == "/records/" + a + "/"
    ensures "/" + "records" + ("/" + a + "/" + tail) == head + tail
  {
    assert "/" + "records" + "/" == "/records/";
  }

  lemma GlobalHeadText(sys: string, tenant: string)
    ensures Join(["fos", "global", sys, "tenants", tenant]) == "/fos/global/" + sys + "/tenants/" + tenant
  {
    assert "/" + "fos" + ("/" + "global" + "/") == "/fos/global/";
    assert "/" + "tenants" + "/" == "/tenants/";
    IdText("/" + "global" + "/", "global", sys, ["tenants", tenant]);
    IdText("/tenants/", "tenants", tenant, []);
    JoinMore("fos", ["global", sys] + ["tenants", tenant]);
    assert ["tenants", tenant] + [] == ["tenants", tenant];
    assert ["fos"] + (["global", sys] + ["tenants", tenant]) == ["fos", "global", sys, "tenants", tenant];
  }

  lemma LocalHeadText(node: string)
    ensures Join(["fos", "local", node]) == "/fos/local/" + node
  {
    assert "/" + "fos" + ("/" + "local" + "/") == "/fos/local/";
    IdText("/" + "local" + "/", "local", node, []);
    JoinMore("fos", ["local", node]);
    assert ["local", node] + [] == ["local", node];
    assert ["fos"] + ["local", node] == ["fos", "local", node];
  }

  /** The text of every path and selector. */
  lemma RenderText(a: Address)
    ensures Render(a)
      == match a
         case GlobalA(sys, tenant, g) => "/fos/global/" + sys.text + "/tenants/" + tenant.text + GlobalText(g)
         case LocalA(node, l) => "/fos/local/" + node.text + LocalText(l)
  {
    match a
    case GlobalA(sys, tenant, g) =>
      GlobalHeadText(sys.text, tenant.text);
      JoinAppend(["fos", "global", sys.text, "tenants", tenant.text], GlobalTail(g));
      GlobalTailText(g);
    case LocalA(node, l) =>
      LocalHeadText(node.text);
      JoinAppend(["fos", "local", node.text], LocalTail(l));
      LocalTailText(l);
  }
}
