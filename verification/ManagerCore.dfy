/**
 The in-memory state of one plugin supervisor and the sections of code that run under its `mu` lock.

 Every section is given twice: as a function on the value `Core`, which the interleaving model in
 `Supervisor` composes, and as a method of the class `Manager`, which updates the fields in place and
 is proved to compute the same thing.
 */
module ManagerCore {
  import opened Options

  /** One RPC connection. A fresh identity is dialed for every start attempt. */
  type ClientId = nat

  /** An operating-system process id; 0 in `PluginState.pid` means "no process". */
  type Pid = p: nat | 0 < p witness 1

  datatype Config = Config(pluginId: string, socketPath: string) {
    /** What the constructor of the supervisor insists on. */
    predicate Valid() {
      pluginId != "" && socketPath != ""
    }
  }

  datatype PluginState = PluginState(
    pluginId: string,
    generation: nat,
    healthy: bool,
    capabilities: seq<string>,
    socketPath: string,
    pid: nat)

  const ZERO_STATE := PluginState("", 0, false, [], "", 0)

  datatype Core = Core(
    state: PluginState,
    cmd: Option<Pid>,
    client: Option<ClientId>,
    rpcEpoch: nat,
    closed: bool)

  const INITIAL_CORE := Core(ZERO_STATE, None, None, 0, false)

  datatype Refusal = ManagerClosed | AlreadyStarted

  // ----- sections under the lock, as functions -----

  /** First section of a start: claim the next generation number. */
  function Reserve(cfg: Config, m: Core): Result<Core, Refusal> {
    if m.closed then Err(ManagerClosed)
    else if m.cmd.Some? || m.client.Some? then Err(AlreadyStarted)
    else Ok(m.(state := PluginState(cfg.pluginId, m.state.generation + 1, false, [], cfg.socketPath, 0)))
  }

  /** Last section of a successful start: publish the generation. `closed` is not looked at again. */
  function Install(cfg: Config, m: Core, pid: Pid, client: ClientId, generation: nat, caps: seq<string>): Core {
    m.(cmd := Some(pid),
       client := Some(client),
       state := PluginState(cfg.pluginId, generation, true, caps, cfg.socketPath, pid))
  }

  /** The number before, in 64 bits. */
  function Predecessor(generation: nat): nat {
    if generation == 0 then 0xFFFF_FFFF_FFFF_FFFF else generation - 1
  }

  /** Give a reserved generation number back. */
  function Rollback(cfg: Config, m: Core, generation: nat): Core {
    if m.state.generation == generation then
      m.(state := PluginState(cfg.pluginId, Predecessor(generation), false, [], "", 0))
    else m
  }

  /** First section of a stop: take client and process away from the manager. */
  function Detach(m: Core, markClosed: bool): Core {
    m.(rpcEpoch := m.rpcEpoch + 1,
       client := None,
       cmd := None,
       state := m.state.(healthy := false, pid := 0),
       closed := m.closed || markClosed)
  }

  /** A failed transport: the connection must never be used again. */
  function Poison(m: Core, client: ClientId): Core {
    if m.client == Some(client) then m.(client := None, state := m.state.(healthy := false)) else m
  }

  /** The check made on every successful reply; epoch 0 switches off everything but the generation. */
  predicate FenceAccepts(m: Core, client: ClientId, generation: nat, epoch: nat) {
    && generation == m.state.generation
    && (epoch != 0 ==> !m.closed && m.client == Some(client) && m.rpcEpoch == epoch)
  }

  /** The second, stricter check that a heartbeat makes before it may touch `healthy`. */
  predicate HeartbeatCurrent(m: Core, client: ClientId, generation: nat, epoch: nat) {
    && !m.closed
    && m.client == Some(client)
    && m.rpcEpoch == epoch
    && m.state.generation == generation
  }

  function CommitHeartbeat(m: Core, client: ClientId, generation: nat, epoch: nat, healthy: bool): Core {
    if HeartbeatCurrent(m, client, generation, epoch) then m.(state := m.state.(healthy := healthy)) else m
  }

  /** The section of Close that runs after the stop. */
  function MarkClosed(m: Core): Core {
    if m.closed then m else m.(closed := true, rpcEpoch := m.rpcEpoch + 1)
  }

  /** May a cleanup issued for `generation` remove the runtime files? */
  predicate CleanupOwns(m: Core, generation: nat) {
    m.state.generation == generation || (m.state.pid == 0 && m.state.socketPath == "")
  }

  // ----- projection of declared bundle metadata -----

  datatype BundleMetadata = BundleMetadata(pluginId: string, generation: int, body: string)

  /** Go's int64(uint64) conversion. */
  function Int64(g: nat): (r: int)
    ensures -0x8000_0000_0000_0000 <= r < 0x8000_0000_0000_0000
    ensures (r - g) % 0x1_0000_0000_0000_0000 == 0
  {
    var low := g % 0x1_0000_0000_0000_0000;
    if low < 0x8000_0000_0000_0000 then low else low - 0x1_0000_0000_0000_0000
  }

  predicate Describes(md: BundleMetadata, state: PluginState) {
    md.pluginId == state.pluginId && md.generation == Int64(state.generation)
  }

  function ProjectMetadata(
    fixed: Option<BundleMetadata>,
    refresh: Option<map<int, BundleMetadata>>,
    state: PluginState): Option<BundleMetadata>
  {
    var key := Int64(state.generation);
    if refresh.Some? && key in refresh.value && Describes(refresh.value[key], state) then Some(refresh.value[key])
    else if fixed.Some? && Describes(fixed.value, state) then fixed
    else None
  }

  // ----- the same sections, in place -----

  class Manager {
    const cfg: Config
    var state: PluginState
    var cmd: Option<Pid>
    var client: Option<ClientId>
    var rpcEpoch: nat
    var closed: bool

    constructor (cfg: Config)
      requires cfg.Valid()
      ensures this.cfg == cfg && View() == INITIAL_CORE
    {
      this.cfg := cfg;
      state := ZERO_STATE;
      cmd, client := None, None;
      rpcEpoch, closed := 0, false;
    }

    function View(): Core
      reads this
    {
      Core(state, cmd, client, rpcEpoch, closed)
    }

    method ReserveGeneration() returns (r: Result<nat, Refusal>)
      modifies this
      ensures r.Ok? <==> Reserve(cfg, old(View())).Ok?
      ensures r.Ok? ==> View() == Reserve(cfg, old(View())).value && r.value == View().state.generation
      ensures r.Err? ==> View() == old(View()) && r.error == Reserve(cfg, old(View())).error
    {
      if closed {
        return Err(ManagerClosed);
      }
      if cmd != None || client != None {
        return Err(AlreadyStarted);
      }
      var generation := state.generation + 1;
      state := PluginState(cfg.pluginId, generation, false, [], cfg.socketPath, 0);
      return Ok(generation);
    }

    method Publish(pid: Pid, newClient: ClientId, generation: nat, caps: seq<string>)
      modifies this
      ensures View() == Install(cfg, old(View()), pid, newClient, generation, caps)
    {
      cmd := Some(pid);
      client := Some(newClient);
      state := PluginState(cfg.pluginId, generation, true, caps, cfg.socketPath, pid);
    }

    method RollbackGeneration(generation: nat)
      modifies this
      ensures View() == Rollback(cfg, old(View()), generation)
    {
      if state.generation == generation {
        state := PluginState(cfg.pluginId, Predecessor(generation), false, [], "", 0);
      }
    }

    /** The first section of a stop; hands the detached client and process to the caller. */
    method StopSection(markClosed: bool)
      returns (r: Result<(Option<ClientId>, Option<Pid>, nat), Refusal>)
      modifies this
      ensures old(closed) ==> r == Err(ManagerClosed) && View() == old(View())
      ensures !old(closed) ==>
        r == Ok((old(client), old(cmd), old(state.generation))) && View() == Detach(old(View()), markClosed)
    {
      if closed {
        return Err(ManagerClosed);
      }
      r := Ok((client, cmd, state.generation));
      rpcEpoch := rpcEpoch + 1;
      client := None;
      cmd := None;
      state := state.(healthy := false);
      state := state.(pid := 0);
      if markClosed {
        closed := true;
      }
    }

    method PoisonClient(broken: ClientId)
      modifies this
      ensures View() == Poison(old(View()), broken)
    {
      if client == Some(broken) {
        client := None;
        state := state.(healthy := false);
      }
    }

    method HeartbeatSection(captured: ClientId, generation: nat, epoch: nat, healthy: bool)
      returns (accepted: bool)
      modifies this
      ensures accepted == HeartbeatCurrent(old(View()), captured, generation, epoch)
      ensures View() == CommitHeartbeat(old(View()), captured, generation, epoch, healthy)
    {
      if closed || client != Some(captured) || rpcEpoch != epoch || state.generation != generation {
        return false;
      }
      state := state.(healthy := healthy);
      return true;
    }

    method CloseSection()
      modifies this
      ensures View() == MarkClosed(old(View()))
    {
      if !closed {
        closed := true;
        rpcEpoch := rpcEpoch + 1;
      }
    }

    // ----- whole operations, run with nobody else touching the manager -----

    /** Start, with the outcome of everything outside the process given by `world`. */
    method Start(world: StartWorld) returns (ok: bool)
      modifies this
      ensures (View(), ok) == StartAlone(cfg, old(View()), world)
    {
      var reserved := ReserveGeneration();
      if reserved.Err? {
        return false;
      }
      if world.StartFails? {
        RollbackGeneration(reserved.value);
        return false;
      }
      Publish(world.pid, world.client, reserved.value, world.caps);
      return true;
    }

    /** Kill: whether the process could be reaped decides the result, not the new state. */
    method Kill(reaped: bool) returns (ok: bool)
      modifies this
      ensures (View(), ok) == KillAlone(old(View()), reaped)
    {
      var r := StopSection(false);
      return r.Ok? && (r.value.1 == None || reaped);
    }

    /** Close, the first time: a stop that marks the manager closed, and the section after it. */
    method Close()
      modifies this
      ensures View() == CloseAlone(old(View()))
    {
      var _ := StopSection(true);
      CloseSection();
    }

    /** Restart: a stop, and a start only if the stop reported no error. */
    method Restart(reaped: bool, world: StartWorld) returns (ok: bool)
      modifies this
      ensures (View(), ok) == RestartAlone(cfg, old(View()), reaped, world)
    {
      if closed {
        return false;
      }
      ok := Kill(reaped);
      if ok {
        ok := Start(world);
      }
    }
  }

  datatype StartWorld = StartFails | StartSucceeds(pid: Pid, client: ClientId, caps: seq<string>)

  function StartAlone(cfg: Config, m: Core, world: StartWorld): (Core, bool) {
    var r := Reserve(cfg, m);
    if r.Err? then (m, false)
    else if world.StartFails? then (Rollback(cfg, r.value, r.value.state.generation), false)
    else (Install(cfg, r.value, world.pid, world.client, r.value.state.generation, world.caps), true)
  }

  function KillAlone(m: Core, reaped: bool): (Core, bool) {
    if m.closed then (m, false) else (Detach(m, false), m.cmd == None || reaped)
  }

  function RestartAlone(cfg: Config, m: Core, reaped: bool, world: StartWorld): (Core, bool) {
    var (stopped, ok) := KillAlone(m, reaped);
    if ok then StartAlone(cfg, stopped, world) else (stopped, false)
  }

  function CloseAlone(m: Core): Core {
    MarkClosed(if m.closed then m else Detach(m, true))
  }
}
