/**
 The host: one supervisor per plugin id, a route table, and the index from capabilities to plugin ids.

 Operations are modelled as run by one caller; interleavings within one supervisor are the subject of `Supervisor`.
 */
module HostModel {
  import opened Options
  import opened ManagerCore
  import opened ProviderEvents
  import opened StringOrder

  datatype Route = Route(pluginId: string, capabilities: seq<string>, healthy: bool, generation: nat)

  datatype HostState = HostState(
    plugins: seq<PluginState>,
    capabilityMap: map<string, seq<string>>,
    routes: seq<Route>)

  function RouteOf(state: PluginState): Route {
    Route(state.pluginId, state.capabilities, state.healthy, state.generation)
  }

  function RoutesOf(states: seq<PluginState>): seq<Route> {
    seq(|states|, i requires 0 <= i < |states| => RouteOf(states[i]))
  }

  /** Each route shows its plugin's state, field by field. */
  lemma RoutesShow(states: seq<PluginState>)
    ensures forall i :: 0 <= i < |states| ==>
      var (r, s) := (RoutesOf(states)[i], states[i]);
      && r.pluginId == s.pluginId && r.capabilities == s.capabilities
      && r.healthy == s.healthy && r.generation == s.generation
  {
  }

  // ----- the capability index -----

  function Get(m: map<string, seq<string>>, cap: string): seq<string> {
    if cap in m then m[cap] else []
  }

  /** One plugin's capabilities, added in order. */
  function AddAll(m: map<string, seq<string>>, id: string, caps: seq<string>): map<string, seq<string>> {
    if caps == [] then m
    else
      var before := AddAll(m, id, caps[..|caps| - 1]);
      before[caps[|caps| - 1] := Get(before, caps[|caps| - 1]) + [id]]
  }

  /** All plugins, added in order. */
  function Index(ids: seq<string>, states: seq<PluginState>): map<string, seq<string>>
    requires |ids| == |states|
  {
    if ids == [] then map[]
    else
      var k := |ids| - 1;
      AddAll(Index(ids[..k], states[..k]), ids[k], states[k].capabilities)
  }

  /** How often the route table says that `id` offers `cap`. */
  function Offers(routes: seq<Route>, id: string, cap: string): nat {
    if routes == [] then 0
    else
      var last := routes[|routes| - 1];
      Offers(routes[..|routes| - 1], id, cap) + if last.pluginId == id then multiset(last.capabilities)[cap] else 0
  }

  /** A supervisor that reports capabilities reports its own id with them. */
  predicate Labelled(id: string, state: PluginState) {
    state.capabilities != [] ==> state.pluginId == id
  }

  predicate AllLabelled(ids: seq<string>, states: seq<PluginState>) {
    |ids| == |states| && forall i :: 0 <= i < |ids| ==> Labelled(ids[i], states[i])
  }

  lemma {:induction false} AddAllCounts(
    m: map<string, seq<string>>, x: string, caps: seq<string>, id: string, cap: string)
    ensures multiset(Get(AddAll(m, x, caps), cap))[id] ==
            multiset(Get(m, cap))[id] + if id == x then multiset(caps)[cap] else 0
  {
    if caps != [] {
      var k := |caps| - 1;
      AddAllCounts(m, x, caps[..k], id, cap);
      assert caps == caps[..k] + [caps[k]];
    }
  }

  /** The index is the exact inverse of the route table, with multiplicity. */
  lemma {:induction false} IndexIsInverse(ids: seq<string>, states: seq<PluginState>, id: string, cap: string)
    requires AllLabelled(ids, states)
    ensures multiset(Get(Index(ids, states), cap))[id] == Offers(RoutesOf(states), id, cap)
  {
    if ids != [] {
      var k := |ids| - 1;
      IndexIsInverse(ids[..k], states[..k], id, cap);
      assert RoutesOf(states)[..k] == RoutesOf(states[..k]);
      AddAllCounts(Index(ids[..k], states[..k]), ids[k], states[k].capabilities, id, cap);
    }
  }

  lemma {:induction false} AddAllKeys(m: map<string, seq<string>>, id: string, caps: seq<string>, cap: string)
    requires cap in m ==> m[cap] != []
    ensures var r := AddAll(m, id, caps); (cap in r <==> cap in m || cap in caps) && (cap in r ==> r[cap] != [])
  {
    if caps != [] {
      var k := |caps| - 1;
      AddAllKeys(m, id, caps[..k], cap);
      assert caps == caps[..k] + [caps[k]];
    }
  }

  /** The index has exactly the capabilities that some plugin offers, and no empty entry. */
  lemma {:induction false} IndexKeys(ids: seq<string>, states: seq<PluginState>, cap: string)
    requires |ids| == |states|
    ensures cap in Index(ids, states) <==> exists i :: 0 <= i < |states| && cap in states[i].capabilities
    ensures cap in Index(ids, states) ==> Index(ids, states)[cap] != []
  {
    if ids != [] {
      var k := |ids| - 1;
      IndexKeys(ids[..k], states[..k], cap);
      AddAllKeys(Index(ids[..k], states[..k]), ids[k], states[k].capabilities, cap);
      if i :| 0 <= i < |states[..k]| && cap in states[..k][i].capabilities {
        assert cap in states[i].capabilities;
      }
      if i :| 0 <= i < |states| && cap in states[i].capabilities {
        assert i == k || cap in states[..k][i].capabilities;
      }
    }
  }

  ghost predicate UpTo(s: seq<string>, x: string) {
    Ascending(s) && forall y :: y in s ==> Leq(y, x)
  }

  lemma {:induction false} AddAllUpTo(m: map<string, seq<string>>, id: string, caps: seq<string>, cap: string)
    requires UpTo(Get(m, cap), id)
    ensures UpTo(Get(AddAll(m, id, caps), cap), id)
  {
    if caps != [] {
      AddAllUpTo(m, id, caps[..|caps| - 1], cap);
      LeqReflexive(id);
    }
  }

  /** Every entry comes out ascending, so the sort that follows has nothing to do. */
  lemma {:induction false} IndexAscends(ids: seq<string>, states: seq<PluginState>, cap: string)
    requires |ids| == |states| && StrictlyAscending(ids)
    ensures Ascending(Get(Index(ids, states), cap))
    ensures ids != [] ==> UpTo(Get(Index(ids, states), cap), ids[|ids| - 1])
  {
    if ids != [] {
      var k := |ids| - 1;
      IndexAscends(ids[..k], states[..k], cap);
      if k > 0 {
        var entry := Get(Index(ids[..k], states[..k]), cap);
        forall y | y in entry ensures Leq(y, ids[k]) {
          LeqTransitive(y, ids[k - 1], ids[k]);
        }
      }
      AddAllUpTo(Index(ids[..k], states[..k]), ids[k], states[k].capabilities, cap);
    }
  }

  /** Sections of a supervisor keep the label. */
  lemma OperationsKeepLabel(cfg: Config, m: Core, reaped: bool, world: StartWorld)
    requires Labelled(cfg.pluginId, m.state)
    ensures Labelled(cfg.pluginId, StartAlone(cfg, m, world).0.state)
    ensures Labelled(cfg.pluginId, KillAlone(m, reaped).0.state)
    ensures Labelled(cfg.pluginId, RestartAlone(cfg, m, reaped, world).0.state)
  {
  }

  // ----- starting all plugins -----

  /** Nothing runs and the state says so. */
  predicate Stopped(m: Core) {
    m.client == None && m.cmd == None && !m.state.healthy && m.state.pid == 0
  }

  predicate CanStart(m: Core) {
    !m.closed && m.cmd == None && m.client == None
  }

  lemma StartedThenKilled(cfg: Config, m: Core, world: StartWorld, reaped: bool)
    requires StartAlone(cfg, m, world).1
    ensures var now := KillAlone(StartAlone(cfg, m, world).0, reaped).0;
      Stopped(now) && now.closed == m.closed && now.state.generation == m.state.generation + 1
  {
  }

  /** A start that fails has refused, changing nothing, or given its generation number back. */
  lemma FailedStart(cfg: Config, m: Core, world: StartWorld)
    requires !StartAlone(cfg, m, world).1
    ensures var r := StartAlone(cfg, m, world).0;
      if CanStart(m) then
        && world.StartFails? && Stopped(r)
        && r.state.generation == m.state.generation && r.state.capabilities == []
      else r == m
  {
  }

  predicate Aligned(cfgs: seq<Config>, ws: seq<StartWorld>, before: seq<Core>, now: seq<Core>) {
    |cfgs| == |ws| == |before| == |now|
  }

  /** The first n plugins are started and the others are as before. */
  predicate FirstStarted(cfgs: seq<Config>, ws: seq<StartWorld>, before: seq<Core>, now: seq<Core>, n: nat) {
    && Aligned(cfgs, ws, before, now) && n <= |now|
    && (forall i :: 0 <= i < n ==> StartAlone(cfgs[i], before[i], ws[i]) == (now[i], true))
    && (forall i :: n <= i < |now| ==> now[i] == before[i])
  }

  predicate AllStarted(cfgs: seq<Config>, ws: seq<StartWorld>, before: seq<Core>, now: seq<Core>) {
    FirstStarted(cfgs, ws, before, now, |now|)
  }

  /** The start of plugin k failed, and the first n of those started before it are stopped again. */
  predicate Undone(cfgs: seq<Config>, ws: seq<StartWorld>, before: seq<Core>, now: seq<Core>, k: nat, n: nat) {
    && Aligned(cfgs, ws, before, now) && n <= k < |now|
    && (forall i :: 0 <= i < k ==> StartAlone(cfgs[i], before[i], ws[i]).1)
    && (forall i :: 0 <= i < n ==>
          && Stopped(now[i])
          && now[i].closed == before[i].closed
          && now[i].state.generation == before[i].state.generation + 1)
    && (forall i :: n <= i < k ==> now[i] == StartAlone(cfgs[i], before[i], ws[i]).0)
    && StartAlone(cfgs[k], before[k], ws[k]) == (now[k], false)
    && (forall i :: k < i < |now| ==> now[i] == before[i])
  }

  /** Plugin k is the first that could not be started; nothing that was started on the way still runs. */
  predicate NoneStarted(cfgs: seq<Config>, ws: seq<StartWorld>, before: seq<Core>, now: seq<Core>, k: nat) {
    Undone(cfgs, ws, before, now, k, k)
  }

  lemma NothingStarted(cfgs: seq<Config>, ws: seq<StartWorld>, before: seq<Core>)
    requires Aligned(cfgs, ws, before, before)
    ensures FirstStarted(cfgs, ws, before, before, 0)
  {
  }

  lemma OneMoreStarted(cfgs: seq<Config>, ws: seq<StartWorld>, before: seq<Core>, now: seq<Core>, n: nat)
    requires FirstStarted(cfgs, ws, before, now, n) && n < |now|
    ensures var (after, ok) := StartAlone(cfgs[n], now[n], ws[n]);
      if ok then FirstStarted(cfgs, ws, before, now[n := after], n + 1)
      else Undone(cfgs, ws, before, now[n := after], n, 0)
  {
    hide StartAlone, Stopped;
  }

  lemma OneMoreUndone(
    cfgs: seq<Config>, ws: seq<StartWorld>, before: seq<Core>, now: seq<Core>, k: nat, n: nat, reaped: bool)
    requires Undone(cfgs, ws, before, now, k, n) && n < k
    ensures Undone(cfgs, ws, before, now[n := KillAlone(now[n], reaped).0], k, n + 1)
  {
    hide StartAlone, KillAlone, Stopped;
    StartedThenKilled(cfgs[n], before[n], ws[n], reaped);
  }

  /** All supervisors' states. */
  ghost function Views(ms: seq<Manager>): (r: seq<Core>)
    reads ms
    ensures |r| == |ms| && forall i :: 0 <= i < |r| ==> r[i] == ms[i].View()
  {
    if ms == [] then [] else Views(ms[..|ms| - 1]) + [ms[|ms| - 1].View()]
  }

  function Configs(ms: seq<Manager>): (r: seq<Config>)
    ensures |r| == |ms| && forall i :: 0 <= i < |r| ==> r[i] == ms[i].cfg
  {
    if ms == [] then [] else Configs(ms[..|ms| - 1]) + [ms[|ms| - 1].cfg]
  }

  // ----- the host -----

  datatype PluginConfig = PluginConfig(pluginId: string, pluginPath: string)

  datatype HostError =
    | RuntimeDirRequired | PluginRequired | InvalidPluginId | PluginPathRequired | DuplicatePluginId | ManagerFailed

  function SocketPath(runtimeDir: string, id: string): string {
    runtimeDir + "/" + id + "/" + id + ".sock"
  }

  function Ids(plugins: seq<PluginConfig>): (r: seq<string>)
    ensures |r| == |plugins| && forall i :: 0 <= i < |r| ==> r[i] == plugins[i].pluginId
  {
    seq(|plugins|, i requires 0 <= i < |plugins| => plugins[i].pluginId)
  }

  /** Append a plugin to the entry of each of its capabilities. */
  method AddCapabilities(m: map<string, seq<string>>, id: string, caps: seq<string>)
    returns (r: map<string, seq<string>>)
    ensures r == AddAll(m, id, caps)
  {
    r := m;
    var c := 0;
    while c < |caps|
      invariant 0 <= c <= |caps| && r == AddAll(m, id, caps[..c])
    {
      r := r[caps[c] := Get(r, caps[c]) + [id]];
      assert caps[..c + 1][..c] == caps[..c];
      c := c + 1;
    }
    assert caps[..c] == caps;
  }

  /** Sort every entry of the index, which changes none of them. */
  method SortEntries(index: map<string, seq<string>>, ghost ids: seq<string>, ghost states: seq<PluginState>)
    returns (r: map<string, seq<string>>)
    requires |ids| == |states| && StrictlyAscending(ids) && index == Index(ids, states)
    ensures r == index
  {
    hide Index, StrictlyAscending, Ascending, Sorted;
    r := index;
    var todo := index.Keys;
    while todo != {}
      invariant r == index && todo <= index.Keys
      decreases |todo|
    {
      var cap :| cap in todo;
      IndexAscends(ids, states, cap);
      SortedAlready(r[cap]);
      r := r[cap := Sorted(r[cap])];
      todo := todo - {cap};
    }
  }

  /** The loop over the plugins. */
  method Collect(ids: seq<string>, ms: seq<Manager>)
    returns (states: seq<PluginState>, routes: seq<Route>, index: map<string, seq<string>>)
    requires |ids| == |ms|
    ensures |states| == |ms| && forall i :: 0 <= i < |ms| ==> states[i] == ms[i].state
    ensures routes == RoutesOf(states) && index == Index(ids, states)
  {
    hide AddAll, RouteOf;
    states, routes, index := [], [], map[];
    var i := 0;
    while i < |ms|
      invariant 0 <= i <= |ms| && |states| == i
      invariant forall k :: 0 <= k < i ==> states[k] == ms[k].state
      invariant routes == RoutesOf(states)
      invariant index == Index(ids[..i], states)
    {
      var state := ms[i].state;
      ghost var told := states;
      states := states + [state];
      routes := routes + [RouteOf(state)];
      index := AddCapabilities(index, ids[i], state.capabilities);
      assert ids[..i + 1][..i] == ids[..i] && states[..i] == told;
      i := i + 1;
    }
    assert ids[..i] == ids;
  }

  class Host {
    var managers: map<string, Manager>
    var plugins: seq<string>

    /** Plugins in strict order, one supervisor of its own for each. */
    ghost predicate Shape()
      reads this
    {
      && StrictlyAscending(plugins)
      && (forall id :: id in plugins <==> id in managers)
      && (forall id :: id in managers ==> managers[id].cfg.pluginId == id)
    }

    ghost predicate Valid()
      reads this, managers.Values
    {
      Shape() && forall id :: id in managers ==> Labelled(id, managers[id].state)
    }

    function ManagerAt(i: nat): Manager
      requires Shape() && i < |plugins|
      reads this
    {
      managers[plugins[i]]
    }

    constructor (managers: map<string, Manager>, plugins: seq<string>)
      ensures this.managers == managers && this.plugins == plugins
    {
      this.managers, this.plugins := managers, plugins;
    }

    /** What the host shows: states, routes and capabilities, each in plugin-id order. */
    method State() returns (out: HostState)
      requires Valid()
      ensures |out.plugins| == |plugins| && forall i :: 0 <= i < |plugins| ==> out.plugins[i] == ManagerAt(i).state
      ensures out.routes == RoutesOf(out.plugins)
      ensures out.capabilityMap == Index(plugins, out.plugins)
      ensures AllLabelled(plugins, out.plugins)
    {
      var ms := Ordered();
      var states, routes, index := Collect(plugins, ms);
      hide RoutesOf, Index, RouteOf;
      index := SortEntries(index, plugins, states);
      out := HostState(states, index, routes);
    }

    /** Restart exactly one plugin. */
    method RestartPlugin(id: string, reaped: bool, world: StartWorld) returns (r: Option<PluginState>)
      requires Valid()
      modifies if id in managers then {managers[id]} else {}
      ensures Valid() && managers == old(managers) && plugins == old(plugins)
      ensures id !in managers ==> r == None
      ensures id in managers ==>
        var (after, ok) := RestartAlone(managers[id].cfg, old(managers[id].View()), reaped, world);
        managers[id].View() == after && r == if ok then Some(after.state) else None
      ensures forall other :: other in managers && other != id ==> managers[other].View() == old(managers[other].View())
    {
      if id !in managers {
        return None;
      }
      var m := managers[id];
      OperationsKeepLabel(m.cfg, m.View(), reaped, world);
      var ok := m.Restart(reaped, world);
      return if ok then Some(m.state) else None;
    }

    /** The supervisors in plugin-id order. */
    function Ordered(): (r: seq<Manager>)
      requires Shape()
      reads this
      ensures |r| == |plugins| && forall i :: 0 <= i < |r| ==> r[i] == managers[plugins[i]]
      ensures NoAlias(r) && (forall m :: m in r ==> m in managers.Values)
      ensures forall id :: id in managers ==> managers[id] in r
    {
      var (ms, ids) := (managers, plugins);
      seq(|ids|, i requires 0 <= i < |ids| && ids[i] in ms => ms[ids[i]])
    }

    /** Start every plugin, or none. */
    method StartAll(worlds: string -> StartWorld, reaped: string -> bool) returns (failed: Option<string>)
      requires Valid()
      modifies managers.Values
      ensures Valid() && managers == old(managers) && plugins == old(plugins)
      ensures failed == None ==>
        AllStarted(Configs(Ordered()), Each(plugins, worlds), old(Views(Ordered())), Views(Ordered()))
      ensures failed.Some? ==> exists k ::
        && 0 <= k < |plugins| && failed == Some(plugins[k])
        && NoneStarted(Configs(Ordered()), Each(plugins, worlds), old(Views(Ordered())), Views(Ordered()), k)
    {
      hide AllStarted, NoneStarted, StrictlyAscending, Labelled, Views, Configs;
      var ms := Ordered();
      assert AllOwn(ms);
      var k := StartEach(ms, Each(plugins, worlds), Each(plugins, reaped));
      return if k == None then None else Some(plugins[k.value]);
    }
  }

  function Each<T>(ids: seq<string>, f: string -> T): (r: seq<T>)
    ensures |r| == |ids| && forall i :: 0 <= i < |r| ==> r[i] == f(ids[i])
  {
    seq(|ids|, i requires 0 <= i < |ids| => f(ids[i]))
  }

  ghost predicate NoAlias(ms: seq<Manager>) {
    forall i, j :: 0 <= i < j < |ms| ==> ms[i] != ms[j]
  }

  ghost predicate AllOwn(ms: seq<Manager>)
    reads ms
  {
    forall m :: m in ms ==> Labelled(m.cfg.pluginId, m.state)
  }

  /**
   Start the plugins one by one. When a start fails, the ones that succeeded are killed again (errors of the
   kills are dropped), the failing one is as its own failure left it, and the later ones are untouched.
   */
  method StartEach(ms: seq<Manager>, ws: seq<StartWorld>, reaped: seq<bool>) returns (failed: Option<nat>)
    requires |ms| == |ws| == |reaped| && NoAlias(ms) && AllOwn(ms)
    modifies ms
    ensures AllOwn(ms)
    ensures failed == None ==> AllStarted(Configs(ms), ws, old(Views(ms)), Views(ms))
    ensures failed.Some? ==>
      failed.value < |ms| && NoneStarted(Configs(ms), ws, old(Views(ms)), Views(ms), failed.value)
  {
    hide StartAlone, KillAlone, Undone, FirstStarted, Labelled;
    ghost var cfgs, before := Configs(ms), Views(ms);
    NothingStarted(cfgs, ws, before);
    var i := 0;
    while i < |ms|
      invariant 0 <= i <= |ms| && AllOwn(ms)
      invariant FirstStarted(cfgs, ws, before, Views(ms), i)
    {
      ghost var now := Views(ms);
      OneMoreStarted(cfgs, ws, before, now, i);
      OperationsKeepLabel(ms[i].cfg, ms[i].View(), true, ws[i]);
      var ok := ms[i].Start(ws[i]);
      assert Views(ms) == now[i := ms[i].View()];
      if !ok {
        KillStarted(ms, i, ws, before, reaped);
        return Some(i);
      }
      i := i + 1;
    }
    return None;
  }

  method KillStarted(ms: seq<Manager>, k: nat, ghost ws: seq<StartWorld>, ghost before: seq<Core>, reaped: seq<bool>)
    requires |ms| == |reaped| && k < |ms| && NoAlias(ms) && AllOwn(ms)
    requires Undone(Configs(ms), ws, before, Views(ms), k, 0)
    modifies ms
    ensures AllOwn(ms)
    ensures Undone(Configs(ms), ws, before, Views(ms), k, k)
  {
    hide StartAlone, KillAlone, Undone, Labelled;
    var i := 0;
    while i < k
      invariant 0 <= i <= k && AllOwn(ms)
      invariant Undone(Configs(ms), ws, before, Views(ms), k, i)
    {
      ghost var now := Views(ms);
      OneMoreUndone(Configs(ms), ws, before, now, k, i, reaped[i]);
      OperationsKeepLabel(ms[i].cfg, ms[i].View(), reaped[i], StartFails);
      var _ := ms[i].Kill(reaped[i]);
      assert Views(ms) == now[i := ms[i].View()];
      i := i + 1;
    }
  }

  // ----- building a host -----

  /** What the host asks of one entry of its configuration, given the ones before it. */
  function Fault(plugins: seq<PluginConfig>, i: nat, creatable: PluginConfig -> bool): Option<HostError>
    requires i < |plugins|
  {
    var p := plugins[i];
    if !ValidPluginId(p.pluginId) then Some(InvalidPluginId)
    else if p.pluginPath == "" then Some(PluginPathRequired)
    else if p.pluginId in Ids(plugins[..i]) then Some(DuplicatePluginId)
    else if !creatable(p) then Some(ManagerFailed)
    else None
  }

  /** Every entry is well formed and can be given a supervisor, and no id comes twice. */
  ghost predicate Usable(plugins: seq<PluginConfig>, creatable: PluginConfig -> bool) {
    && Distinct(Ids(plugins))
    && forall i :: 0 <= i < |plugins| ==>
         ValidPluginId(plugins[i].pluginId) && plugins[i].pluginPath != "" && creatable(plugins[i])
  }

  lemma UsableExactly(plugins: seq<PluginConfig>, creatable: PluginConfig -> bool)
    ensures Usable(plugins, creatable) <==> forall i :: 0 <= i < |plugins| ==> Fault(plugins, i, creatable) == None
  {
    if forall i :: 0 <= i < |plugins| ==> Fault(plugins, i, creatable) == None {
      forall i | 0 <= i < |plugins|
        ensures ValidPluginId(plugins[i].pluginId) && plugins[i].pluginPath != "" && creatable(plugins[i])
      {
        assert Fault(plugins, i, creatable) == None;
      }
      var ids := Ids(plugins);
      forall i, j | 0 <= i < j < |ids| ensures ids[i] != ids[j] {
        assert Fault(plugins, j, creatable) == None;
        assert Ids(plugins[..j])[i] == ids[i];
      }
    }
    if Usable(plugins, creatable) {
      forall i | 0 <= i < |plugins| ensures Fault(plugins, i, creatable) == None {
        assert plugins[i].pluginId == Ids(plugins)[i];
        forall k | 0 <= k < i ensures Ids(plugins[..i])[k] != plugins[i].pluginId {
          assert Ids(plugins[..i])[k] == Ids(plugins)[k];
        }
      }
    }
  }

  /** Close every manager built so far. */
  method CloseBuilt(managers: map<string, Manager>)
    requires forall id :: id in managers ==> managers[id].cfg.pluginId == id && managers[id].View() == INITIAL_CORE
    modifies managers.Values
    ensures forall id :: id in managers ==> managers[id].View() == CloseAlone(INITIAL_CORE)
  {
    var todo := managers.Keys;
    while todo != {}
      invariant todo <= managers.Keys
      invariant forall id :: id in managers ==>
        managers[id].View() == if id in todo then INITIAL_CORE else CloseAlone(INITIAL_CORE)
      decreases |todo|
    {
      var id :| id in todo;
      managers[id].Close();
      todo := todo - {id};
    }
  }

  /** The ids of the entries before the k-th. */
  ghost predicate BuiltUpTo(built: map<string, Manager>, plugins: seq<PluginConfig>, k: nat)
    requires k <= |plugins|
  {
    forall id :: id in built <==> exists j :: 0 <= j < k && plugins[j].pluginId == id
  }

  /**
   A host exists exactly for a usable configuration, with a new supervisor for each plugin. `built` are the
   supervisors made on the way: if one cannot be made, those before it are closed again, but if the entry itself
   is bad, they are left as they are.
   */
  method NewHost(runtimeDir: string, plugins: seq<PluginConfig>, creatable: PluginConfig -> bool)
    returns (r: Result<Host, HostError>, ghost built: map<string, Manager>)
    ensures r.Ok? <==> runtimeDir != "" && plugins != [] && Usable(plugins, creatable)
    ensures r.Ok? ==>
      && fresh(r.value) && r.value.managers == built && r.value.Valid()
      && multiset(r.value.plugins) == multiset(Ids(plugins))
    ensures r.Err? ==>
      if runtimeDir == "" then r.error == RuntimeDirRequired && built == map[]
      else if plugins == [] then r.error == PluginRequired && built == map[]
      else exists k ::
             && 0 <= k < |plugins| && Fault(plugins, k, creatable) == Some(r.error)
             && (forall i :: 0 <= i < k ==> Fault(plugins, i, creatable) == None)
             && BuiltUpTo(built, plugins, k)
    ensures fresh(built.Values)
    ensures forall id :: id in built ==>
      built[id].View() == if r == Err(ManagerFailed) then CloseAlone(INITIAL_CORE) else INITIAL_CORE
    ensures forall id :: id in built ==> built[id].cfg == Config(id, SocketPath(runtimeDir, id))
  {
    hide Fault, Usable, Distinct, StrictlyAscending, ValidPluginId, CloseAlone, SocketPath;
    UsableExactly(plugins, creatable);
    built := map[];
    if runtimeDir == "" {
      return Err(RuntimeDirRequired), built;
    }
    if plugins == [] {
      return Err(PluginRequired), built;
    }
    var managers, fault := BuildManagers(runtimeDir, plugins, creatable);
    built := managers;
    if fault.Some? {
      if fault.value.ManagerFailed? {
        CloseBuilt(managers);
      }
      return Err(fault.value), built;
    }
    var ids := Ids(plugins);
    UsableIsDistinct(plugins, creatable);
    SortedDistinct(ids);
    SameElements(Sorted(ids), ids);
    var host := new Host(managers, Sorted(ids));
    return Ok(host), built;
  }

  /** The loop over the configured plugins: one manager after the other, until one entry is at fault. */
  method BuildManagers(runtimeDir: string, plugins: seq<PluginConfig>, creatable: PluginConfig -> bool)
    returns (managers: map<string, Manager>, fault: Option<HostError>)
    ensures fresh(managers.Values)
    ensures forall id :: id in managers ==> managers[id].View() == INITIAL_CORE
    ensures forall id :: id in managers ==> managers[id].cfg == Config(id, SocketPath(runtimeDir, id))
    ensures fault == None ==>
      && (forall i :: 0 <= i < |plugins| ==> Fault(plugins, i, creatable) == None)
      && BuiltUpTo(managers, plugins, |plugins|)
    ensures fault.Some? ==> exists k ::
      && 0 <= k < |plugins| && Fault(plugins, k, creatable) == fault
      && (forall i :: 0 <= i < k ==> Fault(plugins, i, creatable) == None)
      && BuiltUpTo(managers, plugins, k)
  {
    hide Fault, SocketPath;
    managers := map[];
    var i := 0;
    while i < |plugins|
      invariant 0 <= i <= |plugins|
      invariant forall j :: 0 <= j < i ==> Fault(plugins, j, creatable) == None
      invariant BuiltUpTo(managers, plugins, i)
      invariant fresh(managers.Values)
      invariant forall id :: id in managers ==> managers[id].View() == INITIAL_CORE
      invariant forall id :: id in managers ==> managers[id].cfg == Config(id, SocketPath(runtimeDir, id))
    {
      fault := Fault(plugins, i, creatable);
      if fault.Some? {
        return managers, fault;
      }
      var manager := NewManager(runtimeDir, plugins, i, creatable);
      ghost var earlier := managers;
      managers := managers[plugins[i].pluginId := manager];
      assert managers.Values <= earlier.Values + {manager};
      i := i + 1;
    }
    return managers, None;
  }

  lemma UsableIsDistinct(plugins: seq<PluginConfig>, creatable: PluginConfig -> bool)
    requires Usable(plugins, creatable)
    ensures Distinct(Ids(plugins))
  {
  }

  method NewManager(runtimeDir: string, plugins: seq<PluginConfig>, i: nat, creatable: PluginConfig -> bool)
    returns (m: Manager)
    requires i < |plugins| && Fault(plugins, i, creatable) == None
    ensures fresh(m) && m.View() == INITIAL_CORE
    ensures m.cfg == Config(plugins[i].pluginId, SocketPath(runtimeDir, plugins[i].pluginId))
  {
    var id := plugins[i].pluginId;
    m := new Manager(Config(id, SocketPath(runtimeDir, id)));
  }

  // ----- runtime paths -----

  /** A valid id is one name of a path: not empty, no slash in it, and neither "." nor "..". */
  lemma PluginIdIsOneName(id: string)
    requires ValidPluginId(id)
    ensures id != "" && id != "." && id != ".." && '/' !in id
  {
  }

  /** Ids that the constructor takes, and ids that it refuses. */
  lemma PluginIdExamples()
    ensures ValidPluginId("echo") && ValidPluginId("echo-1") && ValidPluginId("echo_1") && ValidPluginId("1echo.v1")
    ensures !ValidPluginId("") && !ValidPluginId("../echo") && !ValidPluginId("-echo")
    ensures !ValidPluginId("echo/test")
  {
    assert "echo/test"[4] == '/';
  }

  /** The id stands behind the runtime directory, up to the next slash. */
  lemma NameEnds(runtimeDir: string, id: string)
    requires '/' !in id
    ensures
      var p, k := SocketPath(runtimeDir, id), |runtimeDir| + 1;
      && |p| > k + |id| && p[k..k + |id|] == id && p[k + |id|] == '/'
      && forall j :: k <= j < k + |id| ==> p[j] != '/'
  {
    var p, k := SocketPath(runtimeDir, id), |runtimeDir| + 1;
    forall j | k <= j < k + |id| ensures p[j] != '/' {
      assert p[j] == id[j - k] && id[j - k] in id;
    }
  }

  lemma SocketPathGivesId(runtimeDir: string, a: string, b: string)
    requires '/' !in a && '/' !in b && SocketPath(runtimeDir, a) == SocketPath(runtimeDir, b)
    ensures a == b
  {
    NameEnds(runtimeDir, a);
    NameEnds(runtimeDir, b);
    hide SocketPath;
    assert |a| == |b|;
  }

  /** Different plugins have different sockets. */
  lemma SocketPathsDiffer(runtimeDir: string, a: string, b: string)
    requires ValidPluginId(a) && ValidPluginId(b)
    ensures SocketPath(runtimeDir, a) == SocketPath(runtimeDir, b) <==> a == b
  {
    hide SocketPath, ValidPluginId;
    PluginIdIsOneName(a);
    PluginIdIsOneName(b);
    if SocketPath(runtimeDir, a) == SocketPath(runtimeDir, b) {
      SocketPathGivesId(runtimeDir, a, b);
    }
  }
}
