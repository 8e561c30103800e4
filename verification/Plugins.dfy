/** The agent's plugin index and the node's plugin catalog, changed together by registering and
    unregistering plugins. */
module Plugins {
  import opened Model

  datatype PluginKind = NETWORKING | HYPERVISOR(name: string) | IO | ACCELERATOR | GPS

  datatype PluginInfo = PluginInfo(uuid: Uuid, kind: PluginKind)

  /** hypervisors and networking are the index in the agent's memory, catalog is the local store. */
  datatype PluginState = PluginState(
    hypervisors: map<string, Uuid>,
    networking: Option<Uuid>,
    catalog: map<Uuid, PluginInfo>)

  const EMPTY_PLUGINS := PluginState(map[], None, map[])

  // ---------------------------------------------------------------- operations

  function Register(s: PluginState, u: Uuid, kind: PluginKind): (PluginState, Result<Uuid>) {
    match kind
    case HYPERVISOR(hv) =>
      if hv in s.hypervisors then (s, Err(AlreadyPresent))
      else (s.(hypervisors := s.hypervisors[hv := u], catalog := s.catalog[u := PluginInfo(u, kind)]), Ok(u))
    case NETWORKING =>
      if s.networking.Some? then (s, Err(AlreadyPresent))
      else (s.(networking := Some(u), catalog := s.catalog[u := PluginInfo(u, kind)]), Ok(u))
    case _ => (s, Err(UnknownError("Not yet...")))
  }

  function Unregister(s: PluginState, u: Uuid): (PluginState, Result<Uuid>) {
    if u !in s.catalog then (s, Err(NotFound))
    else
      match s.catalog[u].kind
      case HYPERVISOR(hv) => (s.(hypervisors := s.hypervisors - {hv}, catalog := s.catalog - {u}), Ok(u))
      case NETWORKING => (s.(networking := None, catalog := s.catalog - {u}), Ok(u))
      case _ => (s, Err(Unimplemented))
  }

  /** The condition under which the node reports itself READY. */
  predicate NodeReady(s: PluginState) {
    s.networking.Some? && |s.hypervisors| != 0
  }

  class AgentPlugins {
    var hypervisors: map<string, Uuid>
    var networking: Option<Uuid>
    var catalog: map<Uuid, PluginInfo>

    function State(): PluginState
      reads this
    {
      PluginState(hypervisors, networking, catalog)
    }

    constructor ()
      ensures State() == EMPTY_PLUGINS
    {
      hypervisors, networking, catalog := map[], None, map[];
    }

    method RegisterPlugin(u: Uuid, kind: PluginKind) returns (r: Result<Uuid>)
      modifies this
      ensures (State(), r) == Register(old(State()), u, kind)
    {
      match kind
      case HYPERVISOR(hv) =>
        if hv in hypervisors {
          return Err(AlreadyPresent);
        }
        hypervisors := hypervisors[hv := u];
        catalog := catalog[u := PluginInfo(u, kind)];
        r := Ok(u);
      case NETWORKING =>
        if networking.Some? {
          return Err(AlreadyPresent);
        }
        networking := Some(u);
        catalog := catalog[u := PluginInfo(u, kind)];
        r := Ok(u);
      case _ =>
        r := Err(UnknownError("Not yet..."));
    }

    method UnregisterPlugin(u: Uuid) returns (r: Result<Uuid>)
      modifies this
      ensures (State(), r) == Unregister(old(State()), u)
    {
      if u !in catalog {
        return Err(NotFound);
      }
      match catalog[u].kind
      case HYPERVISOR(hv) =>
        hypervisors := hypervisors - {hv};
        catalog := catalog - {u};
        r := Ok(u);
      case NETWORKING =>
        networking := None;
        catalog := catalog - {u};
        r := Ok(u);
      case _ =>
        r := Err(Unimplemented);
    }
  }

  // ---------------------------------------------------------------- agreement

  /** u is the index's entry for this kind. */
  predicate Indexed(s: PluginState, u: Uuid, kind: PluginKind) {
    match kind
    case HYPERVISOR(hv) => hv in s.hypervisors && s.hypervisors[hv] == u
    case NETWORKING => s.networking == Some(u)
    case _ => false
  }

  /** Catalog entries and index entries are in bijection: each names the other. */
  ghost predicate Agree(s: PluginState) {
    forall u, kind :: Indexed(s, u, kind) <==> u in s.catalog && s.catalog[u] == PluginInfo(u, kind)
  }

  /** Every catalogued UUID has its own kind, and every kind has at most one plugin. */
  lemma AgreeIsBijection(s: PluginState, u: Uuid, v: Uuid)
    requires Agree(s) && SelfNamed(s) && u in s.catalog && v in s.catalog
    ensures Indexed(s, u, s.catalog[u].kind)
    ensures s.catalog[u].kind == s.catalog[v].kind ==> u == v
  {
    assert s.catalog[u] == PluginInfo(u, s.catalog[u].kind) && s.catalog[v] == PluginInfo(v, s.catalog[v].kind);
    assert Indexed(s, u, s.catalog[u].kind) && Indexed(s, v, s.catalog[v].kind);
  }

  ghost predicate SelfNamed(s: PluginState) {
    forall u | u in s.catalog :: s.catalog[u].uuid == u
  }

  /** The index has a plugin of this kind. */
  predicate KindTaken(s: PluginState, kind: PluginKind) {
    match kind
    case HYPERVISOR(hv) => hv in s.hypervisors
    case NETWORKING => s.networking.Some?
    case _ => false
  }

  /** Registering keeps index and catalog in agreement exactly when the kind is taken, is not one that
      the agent indexes, or the UUID is not catalogued: registered twice under two kinds, a UUID keeps
      its first index entry but loses its first catalog entry. */
  lemma RegisterAgreesIff(s: PluginState, u: Uuid, kind: PluginKind)
    requires Agree(s) && SelfNamed(s)
    ensures SelfNamed(Register(s, u, kind).0)
    ensures Agree(Register(s, u, kind).0)
      <==> KindTaken(s, kind) || !(kind.HYPERVISOR? || kind.NETWORKING?) || u !in s.catalog
  {
    var (s', r) := Register(s, u, kind);
    if r.Ok? && u in s.catalog {
      var first := s.catalog[u].kind;
      assert s.catalog[u] == PluginInfo(u, first);
      assert Indexed(s, u, first);
      assert Indexed(s', u, first) && s'.catalog[u] != PluginInfo(u, first);
    } else if r.Ok? {
      forall v, k ensures Indexed(s', v, k) <==> v in s'.catalog && s'.catalog[v] == PluginInfo(v, k) {
        assert Indexed(s, v, k) <==> v in s.catalog && s.catalog[v] == PluginInfo(v, k);
      }
    }
  }

  /** Everything that the index and the catalog have of other kinds and other plugins. */
  ghost predicate OthersKept(s: PluginState, s': PluginState, u: Uuid, kind: PluginKind) {
    && (forall v, k | k != kind :: Indexed(s', v, k) <==> Indexed(s, v, k))
    && s'.catalog - {u} == s.catalog - {u}
  }

  /** Registering succeeds exactly for a kind that the agent indexes and that is free: then the plugin is
      the indexed one of its kind and catalogued under it. Otherwise nothing changes, with AlreadyPresent
      exactly for a kind that is taken. */
  lemma RegisterAnswers(s: PluginState, u: Uuid, kind: PluginKind)
    ensures var (s', r) := Register(s, u, kind);
      && (r == Ok(u) <==> (kind.HYPERVISOR? || kind.NETWORKING?) && !KindTaken(s, kind))
      && (r.Ok? ==>
            && r.value == u && OthersKept(s, s', u, kind)
            && (forall v :: Indexed(s', v, kind) <==> v == u)
            && u in s'.catalog && s'.catalog[u] == PluginInfo(u, kind))
      && (r.Err? ==> s' == s)
      && (r == Err(AlreadyPresent) <==> KindTaken(s, kind))
      && (r.Err? && !KindTaken(s, kind) ==> r == Err(UnknownError("Not yet...")))
  {
    var (s', r) := Register(s, u, kind);
    if r.Ok? { assert Indexed(s', u, kind); }
  }

  /** Unregistering answers NotFound exactly for a plugin that is not catalogued and Unimplemented exactly
      for a catalogued kind that the agent does not index; then nothing changes. Otherwise the plugin
      leaves the catalog and its kind the index. */
  lemma UnregisterAnswers(s: PluginState, u: Uuid)
    ensures var (s', r) := Unregister(s, u);
      && (r == Err(NotFound) <==> u !in s.catalog)
      && (r.Err? ==> s' == s)
      && (u in s.catalog ==>
            var kind := s.catalog[u].kind;
            && (r.Ok? <==> kind.HYPERVISOR? || kind.NETWORKING?)
            && (r.Err? ==> r.error == Unimplemented)
            && (r.Ok? ==> r.value == u && u !in s'.catalog && !KindTaken(s', kind) && OthersKept(s, s', u, kind)))
  {
  }

  /** Registering a new plugin and unregistering it gives the state back. */
  lemma RegisterThenUnregister(s: PluginState, u: Uuid, kind: PluginKind)
    requires u !in s.catalog && Register(s, u, kind).1.Ok?
    ensures Unregister(Register(s, u, kind).0, u) == (s, Ok(u))
  {
    var s' := Unregister(Register(s, u, kind).0, u).0;
    assert s'.catalog == s.catalog;
    if kind.HYPERVISOR? { assert s'.hypervisors == s.hypervisors; }
  }

  /** A new agent becomes READY by registering one networking plugin and one hypervisor, in either order,
      and not before the second one. */
  lemma TwoPluginsReady(u: Uuid, v: Uuid, name: string)
    ensures var (n, hv) := (RegisterStep(u, NETWORKING), RegisterStep(v, HYPERVISOR(name)));
      && NodeReady(RunPlugins(EMPTY_PLUGINS, [n, hv])) && NodeReady(RunPlugins(EMPTY_PLUGINS, [hv, n]))
      && !NodeReady(Step(EMPTY_PLUGINS, n)) && !NodeReady(Step(EMPTY_PLUGINS, hv)) && !NodeReady(EMPTY_PLUGINS)
  {
    TwoSteps(EMPTY_PLUGINS, RegisterStep(u, NETWORKING), RegisterStep(v, HYPERVISOR(name)));
    TwoSteps(EMPTY_PLUGINS, RegisterStep(v, HYPERVISOR(name)), RegisterStep(u, NETWORKING));
    assert name in Step(EMPTY_PLUGINS, RegisterStep(v, HYPERVISOR(name))).hypervisors;
  }

  /** One plugin registered as networking and then as a hypervisor: the index has it twice and the
      catalog once, so unregistering it leaves a networking plugin that the catalog does not have. */
  lemma RegisteredTwice(u: Uuid)
    ensures var s := RunPlugins(EMPTY_PLUGINS, [RegisterStep(u, NETWORKING), RegisterStep(u, HYPERVISOR("kvm"))]);
      && !Agree(s) && Indexed(s, u, NETWORKING) && Indexed(s, u, HYPERVISOR("kvm"))
      && Unregister(s, u).1 == Ok(u) && Unregister(s, u).0 == PluginState(map[], Some(u), map[])
  {
    var s1 := Register(EMPTY_PLUGINS, u, NETWORKING).0;
    var s2 := Register(s1, u, HYPERVISOR("kvm")).0;
    TwoSteps(EMPTY_PLUGINS, RegisterStep(u, NETWORKING), RegisterStep(u, HYPERVISOR("kvm")));
    assert s2 == PluginState(map["kvm" := u], Some(u), map[u := PluginInfo(u, HYPERVISOR("kvm"))]);
    assert Indexed(s2, u, NETWORKING) && s2.catalog[u] != PluginInfo(u, NETWORKING);
  }

  lemma TwoSteps(s: PluginState, a: PluginStep, b: PluginStep)
    ensures RunPlugins(s, [a, b]) == Step(Step(s, a), b)
  {
    assert [a, b][1..] == [b] && [b][1..] == [];
    assert RunPlugins(Step(s, a), [b]) == Step(Step(s, a), b);
  }

  /** Unregistering a catalogued plugin removes exactly that plugin from both. */
  lemma UnregisterRemovesOne(s: PluginState, u: Uuid)
    requires Agree(s) && SelfNamed(s)
    ensures var (s', r) := Unregister(s, u);
      && Agree(s') && SelfNamed(s')
      && r == (if u in s.catalog then Ok(u) else Err(NotFound))
      && (forall v, k :: Indexed(s', v, k) <==> v != u && Indexed(s, v, k))
      && s'.catalog == s.catalog - {u}
  {
    var (s', r) := Unregister(s, u);
    if u in s.catalog {
      var kind := s.catalog[u].kind;
      assert s.catalog[u] == PluginInfo(u, kind);
      assert Indexed(s, u, kind);
      forall v, k ensures Indexed(s', v, k) <==> v != u && Indexed(s, v, k) {
        assert Indexed(s, v, k) <==> v in s.catalog && s.catalog[v] == PluginInfo(v, k);
      }
      forall v, k ensures Indexed(s', v, k) <==> v in s'.catalog && s'.catalog[v] == PluginInfo(v, k) {
        assert Indexed(s, v, k) <==> v in s.catalog && s.catalog[v] == PluginInfo(v, k);
      }
    } else {
      forall v, k ensures Indexed(s, v, k) ==> v != u {
        assert Indexed(s, v, k) <==> v in s.catalog && s.catalog[v] == PluginInfo(v, k);
      }
      assert s.catalog - {u} == s.catalog;
    }
  }

  /** READY is decided on the index, and means what the catalog says: a networking plugin and at
      least one hypervisor. */
  lemma ReadyIff(s: PluginState)
    requires Agree(s) && SelfNamed(s)
    ensures NodeReady(s) <==>
      && (exists u :: u in s.catalog && s.catalog[u].kind == NETWORKING)
      && (exists u :: u in s.catalog && s.catalog[u].kind.HYPERVISOR?)
  {
    if s.networking.Some? {
      assert Indexed(s, s.networking.value, NETWORKING);
      assert s.catalog[s.networking.value].kind == NETWORKING;
    }
    if |s.hypervisors| != 0 {
      var hv :| hv in s.hypervisors;
      assert Indexed(s, s.hypervisors[hv], HYPERVISOR(hv));
      assert s.catalog[s.hypervisors[hv]].kind.HYPERVISOR?;
    }
    if u :| u in s.catalog && s.catalog[u].kind == NETWORKING {
      assert s.catalog[u] == PluginInfo(u, NETWORKING);
      assert Indexed(s, u, NETWORKING);
    }
    if u :| u in s.catalog && s.catalog[u].kind.HYPERVISOR? {
      assert s.catalog[u] == PluginInfo(u, s.catalog[u].kind);
      assert Indexed(s, u, s.catalog[u].kind);
      assert s.catalog[u].kind.name in s.hypervisors.Keys;
    }
  }

  // ---------------------------------------------------------------- runs

  datatype PluginStep = RegisterStep(u: Uuid, kind: PluginKind) | UnregisterStep(u: Uuid)

  function Step(s: PluginState, step: PluginStep): PluginState {
    match step
    case RegisterStep(u, kind) => Register(s, u, kind).0
    case UnregisterStep(u) => Unregister(s, u).0
  }

  function RunPlugins(s: PluginState, steps: seq<PluginStep>): PluginState
    decreases |steps|
  {
    if steps == [] then s else RunPlugins(Step(s, steps[0]), steps[1..])
  }

  /** Each UUID that is registered is not in the catalog at that time. */
  ghost predicate NewUuids(s: PluginState, steps: seq<PluginStep>)
    decreases |steps|
  {
    steps == [] || ((steps[0].RegisterStep? ==> steps[0].u !in s.catalog) && NewUuids(Step(s, steps[0]), steps[1..]))
  }

  lemma {:induction false} RunKeepsAgreement(s: PluginState, steps: seq<PluginStep>)
    requires Agree(s) && SelfNamed(s) && NewUuids(s, steps)
    ensures Agree(RunPlugins(s, steps)) && SelfNamed(RunPlugins(s, steps))
    decreases |steps|
  {
    if steps != [] {
      match steps[0] {
        case RegisterStep(u, kind) => RegisterAgreesIff(s, u, kind);
        case UnregisterStep(u) => UnregisterRemovesOne(s, u);
      }
      RunKeepsAgreement(Step(s, steps[0]), steps[1..]);
    }
  }

  /** From both empty, after any run that registers only uncatalogued UUIDs, index and catalog are
      in bijection, no kind is catalogued twice and READY means the same on both. */
  lemma PluginRunsAgree(steps: seq<PluginStep>)
    requires NewUuids(EMPTY_PLUGINS, steps)
    ensures var s := RunPlugins(EMPTY_PLUGINS, steps);
      && Agree(s)
      && (forall u, v | u in s.catalog && v in s.catalog && s.catalog[u].kind == s.catalog[v].kind :: u == v)
      && (NodeReady(s) <==>
          (exists u :: u in s.catalog && s.catalog[u].kind == NETWORKING)
            && (exists u :: u in s.catalog && s.catalog[u].kind.HYPERVISOR?))
  {
    RunKeepsAgreement(EMPTY_PLUGINS, steps);
    var s := RunPlugins(EMPTY_PLUGINS, steps);
    ReadyIff(s);
    forall u, v | u in s.catalog && v in s.catalog && s.catalog[u].kind == s.catalog[v].kind ensures u == v {
      AgreeIsBijection(s, u, v);
    }
  }
}
