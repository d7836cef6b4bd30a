/**
 One plugin supervisor with everything that can run at the same time as it: one lifecycle operation
 (the holder of the lifecycle lock), any number of calls in flight, the monitor loop, the plugin
 processes with their servers, and the two runtime files.

 Each step is one section under the manager's lock, one effect on the outside world, or one move of
 another party. `Next` says what a step does, and a run is any sequence of enabled steps.
 */
module Supervisor {
  import opened Options
  import opened ManagerCore
  import opened PluginServer

  // ----- lifecycle operations -----

  datatype Op = OpStart | OpRestart(byMonitor: bool) | OpKill | OpClose

  datatype Failure = Closed | AlreadyRunning | StartFailed | StopFailed | LogCloseFailed

  /** How one finished lifecycle operation ended. */
  datatype Returned = Returned(op: Op, err: Option<Failure>)

  /** Why runtime files are being removed. */
  datatype After = AfterStop | AfterFailedStart | AfterClose

  /** How far the handshake over a dialed connection has come. */
  datatype Handshake =
    | Verifying(peer: Pid)
    | Authenticating
    | FetchingCapabilities
    | Installing(caps: seq<string>)

  /** How far a start has come after it reserved its generation. */
  datatype Stage =
    | Reserved
    | Prepared
    | Armed(token: Token)
    | Launched(token: Token, pid: Pid)
    | Connected(token: Token, pid: Pid, client: ClientId, handshake: Handshake)
    | Failing(pid: Pid)
    | Rolling(launched: bool)

  /** What a stop still has to do after it detached client and process. */
  datatype StopWork =
    | ShutdownCall(client: ClientId, proc: Option<Pid>)
    | Waiting(pid: Pid)
    | CheckingOwner

  /** Where the holder of the lifecycle lock is. */
  datatype Place =
    | Entered
    | StopEntry
    | StartEntry
    | Attempt(gen: nat, stage: Stage)
    | Announcing
    | FailedStart(gen: nat)
    | Stopping(gen: nat, work: StopWork)
    | Removing(after: After)
    | CloseMarking
    | LogClosing

  datatype Lifecycle = Idle | Busy(op: Op, at: Place)

  // ----- calls in flight -----

  datatype Kind = Heartbeat | Echo | Sleep | Crash

  datatype Verdict = Accepted | Stale | Failed

  datatype Phase =
    | Awaiting
    | Poisoning
    | Committing(healthy: bool)
    | Done(verdict: Verdict)

  /** A data-plane call with what it captured when it began. */
  datatype Call = Call(kind: Kind, client: Option<ClientId>, generation: nat, epoch: nat, phase: Phase)

  datatype CallOutcome = Reply(healthy: bool) | AppError | Broken

  // ----- the monitor loop -----

  datatype Monitor = Ticking | Polling(call: nat) | Deciding | RestartQueued | Restarting | Exited

  // ----- plugin processes -----

  datatype KernelAuth =
    | NotSent
    | Pending(token: Token)
    | Answered(token: Token, ok: bool, replyId: string, replyGen: nat)

  datatype Plugin = Plugin(server: Server, kernelAuth: KernelAuth)

  // ----- the whole state -----

  /** One successful start, recorded when it is published. */
  datatype Publication =
    Publication(generation: nat, epoch: nat, client: ClientId, pid: Pid, token: Token, caps: seq<string>)

  /** Branches of the program that exist but that no run should enter. */
  datatype DeadBranch = StaleInternalReply | CleanupSkipped | RollbackMissed | CloseFoundOpen | RemovalWhileOwned

  /** Why runtime files may lie around while nothing runs. */
  datatype Residue =
    | FromBefore          // there when the supervisor was made
    | RemovalFailed       // a cleanup could not remove a file
    | TokenNotWritten     // the token file was written in part
    | LaunchFailed        // a token was written and no process came of it
    | NotReaped           // a stop gave up waiting and did not clean up
    | StrayBoot           // a process that nobody waits for opened its socket

  datatype State = State(
    cfg: Config,
    core: Core,
    life: Lifecycle,
    calls: map<nat, Call>,
    monitor: Monitor,
    // processes and files
    plugins: map<Pid, Plugin>,
    live: set<Pid>,
    socketFile: bool,
    authFile: Option<Token>,
    // closing
    closeOnce: bool,
    closeErr: Option<Failure>,
    closedCh: bool,
    // history
    published: seq<Publication>,
    dialed: set<ClientId>,
    poisoned: set<ClientId>,
    launched: set<Pid>,
    unreaped: set<Pid>,
    residue: set<Residue>,
    results: seq<Returned>,
    restartsAfterClose: nat,
    hit: set<DeadBranch>)

  /** A new supervisor; files of an earlier one may still lie around. */
  function Init(cfg: Config, socketFile: bool, authFile: Option<Token>): State {
    State(cfg, INITIAL_CORE, Idle, map[], Ticking,
          map[], {}, socketFile, authFile,
          false, None, false,
          [], {}, {}, {}, {}, if socketFile || authFile.Some? then {FromBefore} else {}, [], 0, {})
  }

  datatype TokenOutcome = NoToken | NotWritten(left: Option<Token>) | Written(token: Token)

  datatype WaitOutcome = Exits | WaitFails | KillFails

  datatype Step =
    // lifecycle
    | Begin(op: Op)
    | Enter
    | ReserveStep
    | RemoveStale(socketGone: bool, authGone: bool)
    | MakeToken(outcome: TokenOutcome)
    | Launch(process: Option<Pid>)
    | Dial(connection: Option<(ClientId, Pid)>)
    | VerifyPeer(readable: bool)
    | AuthReply(authRemoved: bool)
    | CapsReply(replyId: string, generation: nat, caps: seq<string>)
    | HandshakeBroken(poison: bool)
    | InstallStep
    | Announced
    | Reap(waited: bool)
    | RollbackStep
    | StopStep
    | ShutdownReply(answer: CallOutcome)
    | WaitStep(wait: WaitOutcome)
    | CheckOwner
    | RemoveFiles(socketRemoved: bool, authRemoved: bool)
    | MarkStep
    | CloseLog(logOk: bool)
    // calls
    | Capture(id: nat, kind: Kind)
    | CallReturns(id: nat, reply: CallOutcome)
    | PoisonStep(id: nat)
    | CommitStep(id: nat)
    // monitor
    | MonitorPoll(id: nat)
    | MonitorObserve
    | MonitorDecide
    | MonitorCancel
    // processes
    | BootPlugin(p: Pid)
    | ExitPlugin(p: Pid, unlinks: bool)
    | StrangerAuth(p: Pid, offered: Token, hookAllows: bool)
    | KernelAuthServed(p: Pid, hookAllows: bool, replyId: string, replyGen: nat)
    | GatedServed(p: Pid)

  // ----- lifecycle steps -----

  /** Every step of the lifecycle and of the processes leaves the calls alone and forgets no poisoned client. */
  predicate Frame(s: State, t: State) {
    && t.cfg == s.cfg
    && t.calls == s.calls
    && s.poisoned <= t.poisoned
    && (s.closedCh ==> t.closedCh)
  }

  /** A call keeps the client it captured, and a new call captures the client installed at that moment. */
  predicate Follows(s: State, t: State) {
    && t.cfg == s.cfg
    && s.poisoned <= t.poisoned
    && (s.closedCh ==> t.closedCh)
    && (forall id :: id in s.calls ==> id in t.calls && t.calls[id].client == s.calls[id].client)
    && (forall id :: id in t.calls && id !in s.calls ==> t.calls[id].client == s.core.client)
  }

  /** Steps of the other parties do not write to the manager or end an operation. */
  predicate Untouched(s: State, t: State) {
    t.core == s.core && t.published == s.published && t.results == s.results
  }

  /** The operation gives the lifecycle lock back. */
  function Return(s: State, op: Op, err: Option<Failure>): (r: State)
    ensures Frame(s, r)
  {
    s.(life := Idle,
       monitor := if op == OpRestart(true) then Ticking else s.monitor,
       results := s.results + [Returned(op, err)])
  }

  function DoBegin(s: State, op: Op): (r: Option<State>)
    ensures r.Some? ==> Frame(s, r.value)
  {
    if s.life.Busy? || (op == OpRestart(true) && !s.monitor.RestartQueued?) then None
    else if op != OpRestart(true) then Some(s.(life := Busy(op, Entered)))
    else Some(s.(life := Busy(op, Entered),
                 monitor := Restarting,
                 restartsAfterClose := s.restartsAfterClose + if s.closedCh then 1 else 0))
  }

  function MoveTo(s: State, op: Op, at: Place): (r: State)
    ensures Frame(s, r)
  {
    s.(life := Busy(op, at))
  }

  function DoEnter(s: State): (r: Option<State>)
    ensures r.Some? ==> Frame(s, r.value)
  {
    match s.life
    case Busy(op, Entered) =>
      (match op
       case OpStart => Some(MoveTo(s, op, StartEntry))
       case OpRestart(_) => if s.core.closed then Some(Return(s, op, Some(Closed))) else Some(MoveTo(s, op, StopEntry))
       case OpKill => Some(MoveTo(s, op, StopEntry))
       case OpClose => if s.closeOnce then Some(Return(s, op, s.closeErr)) else Some(MoveTo(s, op, StopEntry)))
    case _ => None
  }

  function DoReserve(s: State): (r: Option<State>)
    ensures r.Some? ==> Frame(s, r.value)
  {
    match s.life
    case Busy(op, StartEntry) =>
      (match Reserve(s.cfg, s.core)
       case Err(ManagerClosed) => Some(Return(s, op, Some(Closed)))
       case Err(AlreadyStarted) => Some(Return(s, op, Some(AlreadyRunning)))
       case Ok(m) => Some(MoveTo(s.(core := m), op, Attempt(m.state.generation, Reserved))))
    case _ => None
  }

  /** What may still lie around after an attempt to remove both files. */
  function Cleared(residue: set<Residue>, socketGone: bool, authGone: bool): set<Residue> {
    if socketGone && authGone then {} else if authGone then residue - {LaunchFailed} else residue
  }

  function DoRemoveStale(s: State, socketGone: bool, authGone: bool): (r: Option<State>)
    ensures r.Some? ==> Frame(s, r.value)
  {
    match s.life
    case Busy(op, Attempt(gen, Reserved)) =>
      Some(MoveTo(s.(socketFile := s.socketFile && !socketGone,
                     authFile := if authGone then None else s.authFile,
                     residue := Cleared(s.residue, socketGone, authGone)),
                  op, Attempt(gen, Prepared)))
    case _ => None
  }

  function DoMakeToken(s: State, outcome: TokenOutcome): (r: Option<State>)
    ensures r.Some? ==> Frame(s, r.value)
  {
    match s.life
    case Busy(op, Attempt(gen, Prepared)) =>
      (match outcome
       case NoToken => Some(MoveTo(s, op, Attempt(gen, Rolling(false))))
       case NotWritten(left) =>
         Some(MoveTo(s.(residue := s.residue + {TokenNotWritten}, authFile := if left.Some? then left else s.authFile),
                     op, Attempt(gen, Rolling(false))))
       case Written(token) => Some(MoveTo(s.(authFile := Some(token)), op, Attempt(gen, Armed(token)))))
    case _ => None
  }

  /** If the process cannot be started, the token file just written stays behind. */
  function DoLaunch(s: State, process: Option<Pid>): (r: Option<State>)
    ensures r.Some? ==> Frame(s, r.value)
  {
    match s.life
    case Busy(op, Attempt(gen, Armed(token))) =>
      (match process
       case None => Some(MoveTo(s.(residue := s.residue + {LaunchFailed}), op, Attempt(gen, Rolling(false))))
       case Some(p) =>
         if p in s.launched then None
         else Some(MoveTo(s.(live := s.live + {p}, launched := s.launched + {p}),
                          op, Attempt(gen, Launched(token, p)))))
    case _ => None
  }

  /** The socket may be served by any process that booted, not only by the one just launched. */
  function DoDial(s: State, connection: Option<(ClientId, Pid)>): (r: Option<State>)
    ensures r.Some? ==> Frame(s, r.value)
  {
    match s.life
    case Busy(op, Attempt(gen, Launched(token, p))) =>
      (match connection
       case None => Some(MoveTo(s, op, Attempt(gen, Failing(p))))
       case Some((c, peer)) =>
         if c in s.dialed || peer !in s.plugins then None
         else Some(MoveTo(s.(dialed := s.dialed + {c}), op, Attempt(gen, Connected(token, p, c, Verifying(peer))))))
    case _ => None
  }

  /** Peer credentials must name the launched process; then the Auth request goes out. */
  function DoVerifyPeer(s: State, readable: bool): (r: Option<State>)
    ensures r.Some? ==> Frame(s, r.value)
  {
    match s.life
    case Busy(op, Attempt(gen, Connected(token, p, c, Verifying(peer)))) =>
      if readable && peer == p && p in s.plugins then
        Some(MoveTo(s.(plugins := s.plugins[p := s.plugins[p].(kernelAuth := Pending(token))]),
                    op, Attempt(gen, Connected(token, p, c, Authenticating))))
      else Some(MoveTo(s, op, Attempt(gen, Failing(p))))
    case _ => None
  }

  /** Record that a branch was taken that should be dead. */
  function Flag(s: State, wrong: bool, branch: DeadBranch): (r: State)
    ensures Frame(s, r)
  {
    if wrong then s.(hit := s.hit + {branch}) else s
  }

  /** A reply to a handshake call passes the fence with epoch 0. */
  function DoAuthReply(s: State, authRemoved: bool): (r: Option<State>)
    ensures r.Some? ==> Frame(s, r.value)
  {
    match s.life
    case Busy(op, Attempt(gen, Connected(token, p, c, Authenticating))) =>
      if p !in s.plugins || !s.plugins[p].kernelAuth.Answered? then None
      else
        var answer := s.plugins[p].kernelAuth;
        if !answer.ok then Some(MoveTo(s, op, Attempt(gen, Failing(p))))
        else if !FenceAccepts(s.core, c, gen, 0) then
          Some(MoveTo(Flag(s, true, StaleInternalReply), op, Attempt(gen, Failing(p))))
        else if answer.replyId != s.cfg.pluginId || answer.replyGen != gen then
          Some(MoveTo(s, op, Attempt(gen, Failing(p))))
        else Some(MoveTo(s.(authFile := if authRemoved then None else s.authFile,
                            residue := Cleared(s.residue, false, authRemoved)),
                         op, Attempt(gen, Connected(token, p, c, FetchingCapabilities))))
    case _ => None
  }

  const CAPABILITIES_ERROR := "__capabilities_error__"

  /** The answer to the Capabilities request, which the server gives only behind its gate. */
  function DoCapsReply(s: State, id: string, generation: nat, caps: seq<string>): (r: Option<State>)
    ensures r.Some? ==> Frame(s, r.value)
  {
    match s.life
    case Busy(op, Attempt(gen, Connected(token, p, c, FetchingCapabilities))) =>
      if p !in s.plugins || !s.plugins[p].server.authUsed then None
      else
        var served := s.(plugins := s.plugins[p := s.plugins[p].(server := HandleGated(s.plugins[p].server).0)]);
        if !FenceAccepts(s.core, c, gen, 0) then
          Some(MoveTo(Flag(served, true, StaleInternalReply), op, Attempt(gen, Failing(p))))
        else if id != s.cfg.pluginId || generation != gen || CAPABILITIES_ERROR in caps then
          Some(MoveTo(served, op, Attempt(gen, Failing(p))))
        else Some(MoveTo(served, op, Attempt(gen, Connected(token, p, c, Installing(caps)))))
    case _ => None
  }

  /** A handshake call fails; on a timeout or transport error it poisons its client first. */
  function DoHandshakeBroken(s: State, poison: bool): (r: Option<State>)
    ensures r.Some? ==> Frame(s, r.value)
  {
    match s.life
    case Busy(op, Attempt(gen, Connected(token, p, c, handshake))) =>
      if !handshake.Authenticating? && !handshake.FetchingCapabilities? then None
      else if poison then
        Some(MoveTo(s.(core := Poison(s.core, c), poisoned := s.poisoned + {c}), op, Attempt(gen, Failing(p))))
      else Some(MoveTo(s, op, Attempt(gen, Failing(p))))
    case _ => None
  }

  /** The generation is published; the operation goes on to log this, and then returns. */
  function DoInstall(s: State): (r: Option<State>)
    ensures r.Some? ==> Frame(s, r.value)
  {
    match s.life
    case Busy(op, Attempt(gen, Connected(token, p, c, Installing(caps)))) =>
      Some(MoveTo(s.(core := Install(s.cfg, s.core, p, c, gen, caps),
                     published := s.published + [Publication(gen, s.core.rpcEpoch, c, p, token, caps)]),
                  op, Announcing))
    case _ => None
  }

  function DoAnnounced(s: State): (r: Option<State>)
    ensures r.Some? ==> Frame(s, r.value)
  {
    match s.life
    case Busy(op, Announcing) => Some(Return(s, op, None))
    case _ => None
  }

  /** A failed start kills its process and waits for it; errors of either are ignored. */
  function DoReap(s: State, waited: bool): (r: Option<State>)
    ensures r.Some? ==> Frame(s, r.value)
  {
    match s.life
    case Busy(op, Attempt(gen, Failing(p))) =>
      Some(MoveTo(s.(live := if waited then s.live - {p} else s.live,
                     unreaped := if waited then s.unreaped else s.unreaped + {p}),
                  op, Attempt(gen, Rolling(true))))
    case _ => None
  }

  function DoRollback(s: State): (r: Option<State>)
    ensures r.Some? ==> Frame(s, r.value)
  {
    match s.life
    case Busy(op, Attempt(gen, Rolling(afterLaunch))) =>
      var t := Flag(s, s.core.state.generation != gen, RollbackMissed).(core := Rollback(s.cfg, s.core, gen));
      if afterLaunch then Some(MoveTo(t, op, FailedStart(gen)))
      else Some(Return(t, op, Some(StartFailed)))
    case _ => None
  }

  /** What happens after a stop has returned, with or without an error. */
  function StopReturns(s: State, op: Op, err: Option<Failure>): (r: State)
    ensures Frame(s, r)
  {
    match op
    case OpStart => s
    case OpRestart(_) => if err.Some? then Return(s, op, err) else MoveTo(s, op, StartEntry)
    case OpKill => Return(s, op, err)
    case OpClose => MoveTo(s.(closeErr := err), op, CloseMarking)
  }

  /** Shutdown is asked for if there is a client, the process waited for if there is one. */
  function WorkAfterDetach(m: Core): StopWork {
    if m.client.Some? then ShutdownCall(m.client.value, m.cmd)
    else if m.cmd.Some? then Waiting(m.cmd.value)
    else CheckingOwner
  }

  function DoStop(s: State): (r: Option<State>)
    ensures r.Some? ==> Frame(s, r.value)
  {
    match s.life
    case Busy(op, StopEntry) =>
      if s.core.closed then Some(StopReturns(s, op, Some(Closed)))
      else
        Some(MoveTo(s.(core := Detach(s.core, op.OpClose?)), op,
                    Stopping(s.core.state.generation, WorkAfterDetach(s.core))))
    case _ => None
  }

  function DoShutdownReply(s: State, answer: CallOutcome): (r: Option<State>)
    ensures r.Some? ==> Frame(s, r.value)
  {
    match s.life
    case Busy(op, Stopping(gen, ShutdownCall(c, proc))) =>
      var t := (match answer
                case Reply(_) => Flag(s, !FenceAccepts(s.core, c, gen, 0), StaleInternalReply)
                case AppError => s
                case Broken => s.(core := Poison(s.core, c), poisoned := s.poisoned + {c}));
      Some(MoveTo(t, op, Stopping(gen, if proc.Some? then Waiting(proc.value) else CheckingOwner)))
    case _ => None
  }

  function DoWait(s: State, wait: WaitOutcome): (r: Option<State>)
    ensures r.Some? ==> Frame(s, r.value)
  {
    match s.life
    case Busy(op, Stopping(gen, Waiting(p))) =>
      if wait.Exits? then Some(MoveTo(s.(live := s.live - {p}), op, Stopping(gen, CheckingOwner)))
      else Some(StopReturns(s.(unreaped := s.unreaped + {p}, residue := s.residue + {NotReaped}), op, Some(StopFailed)))
    case _ => None
  }

  /** What happens after a cleanup has run or was skipped. */
  function CleanupReturns(s: State, op: Op, after: After): (r: State)
    ensures Frame(s, r)
  {
    match after
    case AfterStop => StopReturns(s, op, None)
    case AfterFailedStart => Return(s, op, Some(StartFailed))
    case AfterClose => MoveTo(s, op, LogClosing)
  }

  function CheckOwnerOf(s: State, op: Op, gen: nat, after: After): (r: State)
    ensures Frame(s, r)
  {
    if gen != 0 && !CleanupOwns(s.core, gen) then CleanupReturns(Flag(s, true, CleanupSkipped), op, after)
    else MoveTo(s, op, Removing(after))
  }

  function DoCheckOwner(s: State): (r: Option<State>)
    ensures r.Some? ==> Frame(s, r.value)
  {
    match s.life
    case Busy(op, Stopping(gen, CheckingOwner)) => Some(CheckOwnerOf(s, op, gen, AfterStop))
    case Busy(op, FailedStart(gen)) => Some(CheckOwnerOf(s, op, gen, AfterFailedStart))
    case _ => None
  }

  /** Both files are removed, as far as the system lets them go. */
  function FilesRemoved(s: State, socketRemoved: bool, authRemoved: bool): (r: State)
    ensures Frame(s, r)
  {
    Flag(s, s.core.cmd.Some? || s.core.client.Some?, RemovalWhileOwned).(
      socketFile := s.socketFile && !socketRemoved,
      authFile := if authRemoved then None else s.authFile,
      residue := Cleared(s.residue + {RemovalFailed}, socketRemoved, authRemoved))
  }

  function DoRemoveFiles(s: State, socketRemoved: bool, authRemoved: bool): (r: Option<State>)
    ensures r.Some? ==> Frame(s, r.value)
  {
    match s.life
    case Busy(op, Removing(after)) => Some(CleanupReturns(FilesRemoved(s, socketRemoved, authRemoved), op, after))
    case _ => None
  }

  function DoMark(s: State): (r: Option<State>)
    ensures r.Some? ==> Frame(s, r.value)
  {
    match s.life
    case Busy(op, CloseMarking) =>
      Some(MoveTo(Flag(s, !s.core.closed, CloseFoundOpen).(core := MarkClosed(s.core), closedCh := true),
                  op, Removing(AfterClose)))
    case _ => None
  }

  function DoCloseLog(s: State, logOk: bool): (r: Option<State>)
    ensures r.Some? ==> Frame(s, r.value)
  {
    match s.life
    case Busy(op, LogClosing) =>
      var err := if s.closeErr.None? && !logOk then Some(LogCloseFailed) else s.closeErr;
      Some(Return(s.(closeErr := err, closeOnce := true), op, err))
    case _ => None
  }

  // ----- calls in flight -----

  function NewCall(m: Core, kind: Kind): Call {
    Call(kind, m.client, m.state.generation, m.rpcEpoch,
         if m.closed || m.client.None? then Done(Failed) else Awaiting)
  }

  function DoCapture(s: State, id: nat, kind: Kind): (r: Option<State>)
    ensures r.Some? ==> Follows(s, r.value)
    ensures r.Some? ==> Untouched(s, r.value)
  {
    if id in s.calls then None else Some(s.(calls := s.calls[id := NewCall(s.core, kind)]))
  }

  function SetPhase(s: State, id: nat, phase: Phase): State
    requires id in s.calls
  {
    s.(calls := s.calls[id := s.calls[id].(phase := phase)])
  }

  /** The reply of a call has arrived; the fence decides what it is worth now. */
  function DoCallReturns(s: State, id: nat, reply: CallOutcome): (r: Option<State>)
    ensures r.Some? ==> Follows(s, r.value)
    ensures r.Some? ==> Untouched(s, r.value)
  {
    if id !in s.calls || !s.calls[id].phase.Awaiting? || s.calls[id].client.None? then None
    else
      var c := s.calls[id];
      match reply
      case AppError => Some(SetPhase(s, id, Done(Failed)))
      case Broken => Some(SetPhase(s, id, Poisoning))
      case Reply(healthy) =>
        if !FenceAccepts(s.core, c.client.value, c.generation, c.epoch) then Some(SetPhase(s, id, Done(Stale)))
        else if c.kind.Heartbeat? then Some(SetPhase(s, id, Committing(healthy)))
        else Some(SetPhase(s, id, Done(Accepted)))
  }

  function DoPoison(s: State, id: nat): (r: Option<State>)
    ensures r.Some? ==> Follows(s, r.value)
  {
    if id !in s.calls || !s.calls[id].phase.Poisoning? || s.calls[id].client.None? then None
    else
      var c := s.calls[id].client.value;
      Some(SetPhase(s.(core := Poison(s.core, c), poisoned := s.poisoned + {c}), id, Done(Failed)))
  }

  function DoCommit(s: State, id: nat): (r: Option<State>)
    ensures r.Some? ==> Follows(s, r.value)
  {
    if id !in s.calls || !s.calls[id].phase.Committing? || s.calls[id].client.None? then None
    else
      var c := s.calls[id];
      var current := HeartbeatCurrent(s.core, c.client.value, c.generation, c.epoch);
      Some(SetPhase(
             s.(core := CommitHeartbeat(s.core, c.client.value, c.generation, c.epoch, c.phase.healthy)),
             id, Done(if current then Accepted else Stale)))
  }

  // ----- the monitor loop -----

  function DoMonitorPoll(s: State, id: nat): (r: Option<State>)
    ensures r.Some? ==> Follows(s, r.value)
    ensures r.Some? ==> Untouched(s, r.value)
  {
    if !s.monitor.Ticking? || id in s.calls then None
    else Some(s.(calls := s.calls[id := NewCall(s.core, Heartbeat)], monitor := Polling(id)))
  }

  function DoMonitorObserve(s: State): (r: Option<State>)
    ensures r.Some? ==> Follows(s, r.value)
    ensures r.Some? ==> Untouched(s, r.value)
  {
    if !s.monitor.Polling? || s.monitor.call !in s.calls || !s.calls[s.monitor.call].phase.Done? then None
    else Some(s.(monitor := if s.calls[s.monitor.call].phase.verdict.Accepted? then Ticking else Deciding))
  }

  function DoMonitorDecide(s: State): (r: Option<State>)
    ensures r.Some? ==> Follows(s, r.value)
    ensures r.Some? ==> Untouched(s, r.value)
  {
    if !s.monitor.Deciding? then None
    else Some(s.(monitor := if s.closedCh then Exited else RestartQueued))
  }

  // ----- plugin processes -----

  /** A live process reads the token file and opens its socket. */
  function DoBoot(s: State, p: Pid): (r: Option<State>)
    ensures r.Some? ==> Frame(s, r.value)
    ensures r.Some? ==> Untouched(s, r.value)
  {
    if p !in s.live || p in s.plugins || s.authFile.None? then None
    else Some(s.(plugins := s.plugins[p := Plugin(Boot(s.authFile.value), NotSent)], socketFile := true,
                 residue := if p in s.unreaped then s.residue + {StrayBoot} else s.residue))
  }

  function DoExit(s: State, p: Pid, unlinks: bool): (r: Option<State>)
    ensures r.Some? ==> Frame(s, r.value)
    ensures r.Some? ==> Untouched(s, r.value)
  {
    if p !in s.live then None
    else Some(s.(live := s.live - {p}, socketFile := s.socketFile && !unlinks))
  }

  function Serve(s: State, p: Pid, plugin: Plugin): (r: State)
    ensures Frame(s, r)
  {
    s.(plugins := s.plugins[p := plugin])
  }

  function DoStrangerAuth(s: State, p: Pid, offered: Token, hookAllows: bool): (r: Option<State>)
    ensures r.Some? ==> Frame(s, r.value)
    ensures r.Some? ==> Untouched(s, r.value)
  {
    if p !in s.live || p !in s.plugins then None
    else
      var g := s.plugins[p];
      Some(Serve(s, p, g.(server := HandleAuth(g.server, Stranger, offered, hookAllows).0)))
  }

  /** The server works on the supervisor's Auth request, perhaps after the supervisor gave up waiting. */
  function DoKernelAuthServed(s: State, p: Pid, hookAllows: bool, replyId: string, replyGen: nat): (r: Option<State>)
    ensures r.Some? ==> Frame(s, r.value)
    ensures r.Some? ==> Untouched(s, r.value)
  {
    if p !in s.live || p !in s.plugins || !s.plugins[p].kernelAuth.Pending? then None
    else
      var g := s.plugins[p];
      var (server, ok) := HandleAuth(g.server, Kernel, g.kernelAuth.token, hookAllows);
      Some(Serve(s, p, Plugin(server, Answered(g.kernelAuth.token, ok, replyId, replyGen))))
  }

  function DoGatedServed(s: State, p: Pid): (r: Option<State>)
    ensures r.Some? ==> Frame(s, r.value)
    ensures r.Some? ==> Untouched(s, r.value)
  {
    if p !in s.live || p !in s.plugins then None
    else
      var g := s.plugins[p];
      Some(Serve(s, p, g.(server := HandleGated(g.server).0)))
  }

  // ----- runs -----

  /** Entering an operation and preparing a start. */
  predicate IsStartingStep(e: Step) {
    e.Begin? || e.Enter? || e.ReserveStep? || e.RemoveStale? || e.MakeToken? || e.Launch?
  }

  function StartingNext(s: State, e: Step): (r: Option<State>)
    requires IsStartingStep(e)
    ensures r.Some? ==> Frame(s, r.value)
  {
    match e
    case Begin(op) => DoBegin(s, op)
    case Enter => DoEnter(s)
    case ReserveStep => DoReserve(s)
    case RemoveStale(a, b) => DoRemoveStale(s, a, b)
    case MakeToken(o) => DoMakeToken(s, o)
    case Launch(p) => DoLaunch(s, p)
  }

  /** From the launched process to the published generation and the return. */
  predicate IsHandshakeStep(e: Step) {
    || e.Dial? || e.VerifyPeer? || e.AuthReply? || e.CapsReply? || e.HandshakeBroken?
    || e.InstallStep? || e.Announced?
  }

  function HandshakeNext(s: State, e: Step): (r: Option<State>)
    requires IsHandshakeStep(e)
    ensures r.Some? ==> Frame(s, r.value)
  {
    match e
    case Dial(c) => DoDial(s, c)
    case VerifyPeer(r) => DoVerifyPeer(s, r)
    case AuthReply(r) => DoAuthReply(s, r)
    case CapsReply(id, g, caps) => DoCapsReply(s, id, g, caps)
    case HandshakeBroken(p) => DoHandshakeBroken(s, p)
    case InstallStep => DoInstall(s)
    case Announced => DoAnnounced(s)
  }

  /** Giving a failed attempt back, and the first half of a stop. */
  predicate IsUndoingStep(e: Step) {
    e.Reap? || e.RollbackStep? || e.StopStep? || e.ShutdownReply?
  }

  function UndoingNext(s: State, e: Step): (r: Option<State>)
    requires IsUndoingStep(e)
    ensures r.Some? ==> Frame(s, r.value)
  {
    match e
    case Reap(w) => DoReap(s, w)
    case RollbackStep => DoRollback(s)
    case StopStep => DoStop(s)
    case ShutdownReply(a) => DoShutdownReply(s, a)
  }

  /** The second half of a stop, cleanups and the end of Close. */
  predicate IsStoppingStep(e: Step) {
    e.WaitStep? || e.CheckOwner? || e.RemoveFiles? || e.MarkStep? || e.CloseLog?
  }

  function StoppingNext(s: State, e: Step): (r: Option<State>)
    requires IsStoppingStep(e)
    ensures r.Some? ==> Frame(s, r.value)
  {
    match e
    case WaitStep(w) => DoWait(s, w)
    case CheckOwner => DoCheckOwner(s)
    case RemoveFiles(a, b) => DoRemoveFiles(s, a, b)
    case MarkStep => DoMark(s)
    case CloseLog(ok) => DoCloseLog(s, ok)
  }

  /** Calls in flight and the monitor. */
  predicate IsCallingStep(e: Step) {
    || e.Capture? || e.CallReturns? || e.PoisonStep? || e.CommitStep?
    || e.MonitorPoll? || e.MonitorObserve? || e.MonitorDecide? || e.MonitorCancel?
  }

  function CallingNext(s: State, e: Step): (r: Option<State>)
    requires IsCallingStep(e)
    ensures r.Some? ==> Follows(s, r.value)
  {
    match e
    case Capture(id, k) => DoCapture(s, id, k)
    case CallReturns(id, r) => DoCallReturns(s, id, r)
    case PoisonStep(id) => DoPoison(s, id)
    case CommitStep(id) => DoCommit(s, id)
    case MonitorPoll(id) => DoMonitorPoll(s, id)
    case MonitorObserve => DoMonitorObserve(s)
    case MonitorDecide => DoMonitorDecide(s)
    case MonitorCancel => if s.monitor.Ticking? then Some(s.(monitor := Exited)) else None
  }

  /** What plugin processes and their servers do. */
  predicate IsPluginStep(e: Step) {
    e.BootPlugin? || e.ExitPlugin? || e.StrangerAuth? || e.KernelAuthServed? || e.GatedServed?
  }

  function PluginNext(s: State, e: Step): (r: Option<State>)
    requires IsPluginStep(e)
    ensures r.Some? ==> Frame(s, r.value)
  {
    match e
    case BootPlugin(p) => DoBoot(s, p)
    case ExitPlugin(p, u) => DoExit(s, p, u)
    case StrangerAuth(p, t, h) => DoStrangerAuth(s, p, t, h)
    case KernelAuthServed(p, h, id, g) => DoKernelAuthServed(s, p, h, id, g)
    case GatedServed(p) => DoGatedServed(s, p)
  }

  /** The state after one step, or None if the step is not possible now. */
  function Next(s: State, e: Step): (r: Option<State>)
    ensures r.Some? ==> Follows(s, r.value)
  {
    if IsStartingStep(e) then StartingNext(s, e)
    else if IsHandshakeStep(e) then HandshakeNext(s, e)
    else if IsUndoingStep(e) then UndoingNext(s, e)
    else if IsStoppingStep(e) then StoppingNext(s, e)
    else if IsCallingStep(e) then CallingNext(s, e)
    else PluginNext(s, e)
  }

  /** Run a sequence of steps; None if some step was not possible. */
  function RunFrom(s: State, es: seq<Step>): Option<State>
    decreases |es|
  {
    if es == [] then Some(s)
    else
      var t := Next(s, es[0]);
      if t.None? then None else RunFrom(t.value, es[1..])
  }

  ghost predicate ReachableBy(s: State, cfg: Config, socketFile: bool, authFile: Option<Token>, es: seq<Step>) {
    cfg.Valid() && RunFrom(Init(cfg, socketFile, authFile), es) == Some(s)
  }

  /** Some run of a correctly configured supervisor passes through this state. */
  ghost predicate Reachable(s: State) {
    exists cfg, socketFile, authFile, es :: ReachableBy(s, cfg, socketFile, authFile, es)
  }
}
