/**
 What every step of the supervisor keeps, in whatever order the parties move.
 */
module SupervisorInvariant {
  import opened Options
  import opened ManagerCore
  import opened PluginServer
  import opened Supervisor

  /** A generation is reserved and neither published nor given back. */
  predicate InAttempt(l: Lifecycle) {
    l.Busy? && l.at.Attempt?
  }

  /** A generation is published and the operation that did it has not returned yet. */
  predicate InAnnouncement(l: Lifecycle) {
    l.Busy? && l.at.Announcing?
  }

  /** The attempt holds a connection that is not installed yet. */
  predicate Connecting(l: Lifecycle) {
    InAttempt(l) && l.at.stage.Connected?
  }

  /** Close has begun for good. */
  predicate ClosingTail(l: Lifecycle) {
    l.Busy? && l.op.OpClose? && (l.at.Stopping? || l.at.Removing? || l.at.CloseMarking? || l.at.LogClosing?)
  }

  /** The operation has not yet looked at or changed anything that matters. */
  predicate AtEntrance(at: Place) {
    at.Entered? || at.StopEntry? || at.StartEntry?
  }

  function HeldByStage(g: Stage): set<Pid> {
    match g
    case Launched(_, p) => {p}
    case Connected(_, p, _, _) => {p}
    case Failing(p) => {p}
    case _ => {}
  }

  function HeldByStop(w: StopWork): set<Pid> {
    match w
    case ShutdownCall(_, proc) => if proc.Some? then {proc.value} else {}
    case Waiting(p) => {p}
    case CheckingOwner => {}
  }

  /** The process the lifecycle operation is responsible for. */
  function HeldByOperation(l: Lifecycle): set<Pid> {
    if InAttempt(l) then HeldByStage(l.at.stage)
    else if l.Busy? && l.at.Stopping? then HeldByStop(l.at.work)
    else {}
  }

  function HeldByManager(m: Core): set<Pid> {
    if m.cmd.Some? then {m.cmd.value} else {}
  }

  function Last(pub: seq<Publication>): Publication
    requires pub != []
  {
    pub[|pub| - 1]
  }

  // ----- published generations -----

  ghost predicate HistoryOk(pub: seq<Publication>, epoch: nat, dialed: set<ClientId>, launched: set<Pid>) {
    && (forall i :: 0 <= i < |pub| ==> pub[i].generation == i + 1)
    && (forall i :: 0 <= i < |pub| ==> pub[i].epoch <= epoch && pub[i].client in dialed && pub[i].pid in launched)
    && (forall i, j :: 0 <= i < j < |pub| ==>
          pub[i].epoch < pub[j].epoch && pub[i].client != pub[j].client && pub[i].pid != pub[j].pid)
  }

  predicate CountsAsStart(r: Returned) {
    r.err.None? && (r.op.OpStart? || r.op.OpRestart?)
  }

  /** How many operations so far have started the plugin. */
  function SuccessfulStarts(results: seq<Returned>): nat {
    if results == [] then 0
    else
      var last := results[|results| - 1];
      SuccessfulStarts(results[..|results| - 1]) + if CountsAsStart(last) then 1 else 0
  }

  lemma AppendResult(results: seq<Returned>, r: Returned)
    ensures SuccessfulStarts(results + [r]) == SuccessfulStarts(results) + if CountsAsStart(r) then 1 else 0
  {
    assert (results + [r])[..|results|] == results;
  }

  // ----- the manager's own fields -----

  ghost predicate CoreOk(cfg: Config, m: Core, l: Lifecycle, pub: seq<Publication>) {
    && m.state.generation == |pub| + (if InAttempt(l) then 1 else 0)
    && (m.cmd.Some? ==>
          && pub != []
          && m.cmd.value == Last(pub).pid
          && m.rpcEpoch == Last(pub).epoch
          && m.state.socketPath == cfg.socketPath
          && m.state.capabilities == Last(pub).caps
          && !m.closed
          && !InAttempt(l))
    && (m.cmd.None? && pub != [] ==> Last(pub).epoch < m.rpcEpoch)
    && (m.client.Some? ==> m.cmd.Some? && m.client.value == Last(pub).client)
    && m.state.pid == (if m.cmd.Some? then m.cmd.value else 0)
    && (m.state.healthy ==> m.client.Some?)
    && (m.state.capabilities != [] ==> !InAttempt(l) && pub != [] && m.state.capabilities == Last(pub).caps)
    && (m.state == ZERO_STATE || m.state.pluginId == cfg.pluginId)
    && (m.closed ==> !InAttempt(l))
  }

  /** Where the operation stands against what it finds in the manager. */
  ghost predicate PlaceOk(m: Core, op: Op, at: Place) {
    match at
    case Entered => true
    case StopEntry => !op.OpStart?
    case StartEntry => op.OpStart? || (op.OpRestart? && m.cmd.None?)
    case Attempt(gen, _) => gen == m.state.generation && (op.OpStart? || op.OpRestart?)
    case Announcing => m.cmd.Some? && (op.OpStart? || op.OpRestart?)
    case FailedStart(_) =>
      && m.cmd.None?
      && m.state.pid == 0 && m.state.socketPath == ""
      && (op.OpStart? || op.OpRestart?)
    case Stopping(gen, _) => m.cmd.None? && gen == m.state.generation && !op.OpStart?
    case Removing(after) =>
      && m.cmd.None?
      && (after.AfterStop? ==> !op.OpStart?)
      && (after.AfterFailedStart? ==> op.OpStart? || op.OpRestart?)
      && (after.AfterClose? ==> op.OpClose?)
    case CloseMarking => m.cmd.None? && op.OpClose?
    case LogClosing => m.cmd.None? && op.OpClose?
  }

  ghost predicate LifeOk(m: Core, l: Lifecycle) {
    l.Busy? ==> PlaceOk(m, l.op, l.at)
  }

  // ----- connections -----

  ghost predicate ClientsOk(
    m: Core, l: Lifecycle, pub: seq<Publication>, dialed: set<ClientId>, poisoned: set<ClientId>)
  {
    && poisoned <= dialed
    && (m.client.Some? ==> m.client.value !in poisoned)
    && (m.cmd.Some? && m.client.None? ==> pub != [] && Last(pub).client in poisoned)
    && (Connecting(l) ==>
          && l.at.stage.client in dialed
          && l.at.stage.client !in poisoned
          && (forall i :: 0 <= i < |pub| ==> pub[i].client != l.at.stage.client))
    && (l.Busy? && l.at.Stopping? && l.at.work.ShutdownCall? ==> l.at.work.client in dialed)
  }

  /** A call that captured a client captured exactly what that client was published under. */
  predicate CapturedOk(c: Call, pub: seq<Publication>) {
    c.client.Some? ==>
      && 1 <= c.generation <= |pub|
      && pub[c.generation - 1].client == c.client.value
      && pub[c.generation - 1].epoch == c.epoch
  }

  ghost predicate CallsOk(calls: map<nat, Call>, pub: seq<Publication>) {
    forall id :: id in calls ==> CapturedOk(calls[id], pub)
  }

  // ----- processes and files -----

  ghost predicate ProcessesOk(
    m: Core, l: Lifecycle, pub: seq<Publication>, live: set<Pid>, launched: set<Pid>, unreaped: set<Pid>)
  {
    && live <= launched
    && HeldByOperation(l) <= launched
    && (InAttempt(l) ==> forall i :: 0 <= i < |pub| ==> pub[i].pid !in HeldByStage(l.at.stage))
    && live <= HeldByManager(m) + HeldByOperation(l) + unreaped
  }

  /** No process is held or was launched by the attempt in progress, and no cleanup is still to come. */
  predicate Quiet(m: Core, l: Lifecycle) {
    && m.cmd.None?
    && (InAttempt(l) ==> l.at.stage.Reserved? || l.at.stage.Prepared? || l.at.stage == Rolling(false))
    && (l.Busy? ==> !l.at.Stopping? && !l.at.FailedStart? && !l.at.Removing?)
  }

  /** The same, or the token is written and the process is not launched yet. */
  predicate Unlaunched(m: Core, l: Lifecycle) {
    Quiet(m, l) || (m.cmd.None? && InAttempt(l) && l.at.stage.Armed?)
  }

  ghost predicate FilesOk(m: Core, l: Lifecycle, socketFile: bool, authFile: Option<Token>, residue: set<Residue>) {
    && (Unlaunched(m, l) && residue <= {LaunchFailed} ==> !socketFile)
    && (Quiet(m, l) && residue <= {LaunchFailed} && authFile.Some? ==> LaunchFailed in residue)
    && (LaunchFailed in residue ==> authFile.Some?)
    && (InAttempt(l) && l.at.stage.Armed? ==> authFile == Some(l.at.stage.token))
  }

  // ----- servers -----

  /** The accepted Auth of this server, if any, is the supervisor's own with this token. */
  ghost predicate KernelWon(g: Plugin, token: Token) {
    && g.kernelAuth.Answered?
    && g.kernelAuth.ok
    && g.kernelAuth.token == token
    && (exists i :: 0 <= i < |g.server.log| && g.server.log[i] == AuthAccepted(Kernel, token))
  }

  ghost predicate PluginOk(g: Plugin) {
    && Disciplined(g.server)
    && (g.kernelAuth.Answered? && g.kernelAuth.ok ==> KernelWon(g, g.kernelAuth.token))
  }

  /** The request that is out, or was answered, carries the token of this attempt. */
  ghost predicate HandshakeOk(plugins: map<Pid, Plugin>, g: Stage)
    requires g.Connected?
  {
    && (g.handshake.Authenticating? ==>
          g.pid in plugins && !plugins[g.pid].kernelAuth.NotSent? && plugins[g.pid].kernelAuth.token == g.token)
    && (g.handshake.FetchingCapabilities? || g.handshake.Installing? ==>
          g.pid in plugins && KernelWon(plugins[g.pid], g.token))
  }

  ghost predicate PluginsOk(plugins: map<Pid, Plugin>, l: Lifecycle, pub: seq<Publication>, launched: set<Pid>) {
    && (forall p :: p in plugins ==> p in launched && PluginOk(plugins[p]))
    && (forall i :: 0 <= i < |pub| ==> pub[i].pid in plugins && KernelWon(plugins[pub[i].pid], pub[i].token))
    && (Connecting(l) ==> HandshakeOk(plugins, l.at.stage))
  }

  // ----- closing and the monitor -----

  ghost predicate CloseOk(m: Core, l: Lifecycle, once: bool, err: Option<Failure>, ch: bool, results: seq<Returned>) {
    && (m.closed <==> once || ClosingTail(l))
    && (ch <==> once || (l.Busy? && (l.at == Removing(AfterClose) || l.at.LogClosing?)))
    && (forall i :: 0 <= i < |results| && results[i].op.OpClose? ==> once && results[i].err == err)
    && (l.Busy? && l.at.StopEntry? && !l.op.OpKill? ==> !once)
    && (once && l.Busy? ==> AtEntrance(l.at))
  }

  ghost predicate MonitorOk(monitor: Monitor, l: Lifecycle, ch: bool, restartsAfterClose: nat) {
    && (monitor.Restarting? <==> l.Busy? && l.op == OpRestart(true))
    && (!ch ==> restartsAfterClose == 0)
    && restartsAfterClose <= 1
    && (restartsAfterClose == 1 ==> !monitor.RestartQueued?)
  }

  ghost predicate Inv(s: State) {
    && s.cfg.Valid()
    && HistoryOk(s.published, s.core.rpcEpoch, s.dialed, s.launched)
    && CoreOk(s.cfg, s.core, s.life, s.published)
    && LifeOk(s.core, s.life)
    && ClientsOk(s.core, s.life, s.published, s.dialed, s.poisoned)
    && CallsOk(s.calls, s.published)
    && ProcessesOk(s.core, s.life, s.published, s.live, s.launched, s.unreaped)
    && FilesOk(s.core, s.life, s.socketFile, s.authFile, s.residue)
    && PluginsOk(s.plugins, s.life, s.published, s.launched)
    && CloseOk(s.core, s.life, s.closeOnce, s.closeErr, s.closedCh, s.results)
    && MonitorOk(s.monitor, s.life, s.closedCh, s.restartsAfterClose)
    && |s.published| == SuccessfulStarts(s.results) + (if InAnnouncement(s.life) then 1 else 0)
    && s.hit == {}
  }

  lemma InitInv(cfg: Config, socketFile: bool, authFile: Option<Token>)
    requires cfg.Valid()
    ensures Inv(Init(cfg, socketFile, authFile))
  {
  }

  // ----- moves shared by several steps -----

  /** The operation goes on without touching the manager, and without a start attempt on either side. */
  lemma MoveKeeps(s: State, op: Op, at: Place)
    requires Inv(s) && s.life.Busy? && s.life.op == op
    requires !s.life.at.Attempt? && !at.Attempt? && !s.life.at.Announcing? && !at.Announcing?
    requires PlaceOk(s.core, op, at)
    requires HeldByOperation(Busy(op, at)) <= s.launched
    requires HeldByOperation(s.life) <= HeldByOperation(Busy(op, at)) + s.unreaped
    requires at.Stopping? ==> !at.work.ShutdownCall?
    requires FilesOk(s.core, Busy(op, at), s.socketFile, s.authFile, s.residue)
    requires ClosingTail(Busy(op, at)) == ClosingTail(s.life)
    requires
      (at == Removing(AfterClose) || at.LogClosing?) ==
      (s.life.at == Removing(AfterClose) || s.life.at.LogClosing?)
    requires at.StopEntry? && !op.OpKill? ==> !s.closeOnce
    requires s.closeOnce ==> AtEntrance(at)
    ensures Inv(MoveTo(s, op, at))
  {
    hide SuccessfulStarts;
  }

  /** The operation ends. */
  lemma ReturnKeeps(s: State, op: Op, err: Option<Failure>)
    requires Inv(s) && s.life.Busy? && s.life.op == op
    requires !InAttempt(s.life) && !InAnnouncement(s.life) && !ClosingTail(s.life)
    requires HeldByOperation(s.life) <= s.unreaped
    requires FilesOk(s.core, Idle, s.socketFile, s.authFile, s.residue)
    requires op.OpClose? ==> s.closeOnce && err == s.closeErr
    requires !CountsAsStart(Returned(op, err))
    ensures Inv(Return(s, op, err))
  {
    hide SuccessfulStarts;
    AppendResult(s.results, Returned(op, err));
  }

  lemma StopReturnsKeeps(s: State, op: Op, err: Option<Failure>)
    requires Inv(s) && s.life.Busy? && s.life.op == op && !op.OpStart?
    requires !InAttempt(s.life) && !InAnnouncement(s.life)
    requires s.core.cmd.None? || (err.Some? && !op.OpClose?)
    requires HeldByOperation(s.life) <= s.unreaped
    requires FilesOk(s.core, Idle, s.socketFile, s.authFile, s.residue)
    requires op.OpClose? ==> ClosingTail(s.life) && !s.life.at.LogClosing? && s.life.at != Removing(AfterClose)
    requires !op.OpClose? ==> !ClosingTail(s.life)
    ensures Inv(StopReturns(s, op, err))
  {
    hide SuccessfulStarts;
    match op
    case OpRestart(_) =>
      if err.Some? {
        ReturnKeeps(s, op, err);
      } else {
        MoveKeeps(s, op, StartEntry);
      }
    case OpKill => ReturnKeeps(s, op, err);
    case OpClose =>
      var t := s.(closeErr := err);
      assert Inv(t);
      MoveKeeps(t, op, CloseMarking);
  }

  /** The attempt goes on with the same process. */
  lemma StageKeeps(s: State, stage: Stage)
    requires Inv(s) && InAttempt(s.life)
    requires HeldByStage(stage) == HeldByStage(s.life.at.stage)
    requires stage.Connected? ==>
               && stage.client in s.dialed && stage.client !in s.poisoned
               && (forall i :: 0 <= i < |s.published| ==> s.published[i].client != stage.client)
               && HandshakeOk(s.plugins, stage)
    requires FilesOk(s.core, Busy(s.life.op, Attempt(s.life.at.gen, stage)), s.socketFile, s.authFile, s.residue)
    ensures Inv(MoveTo(s, s.life.op, Attempt(s.life.at.gen, stage)))
  {
    hide SuccessfulStarts;
  }

  /** The attempt turns to failure and still holds its process. */
  lemma StageFailsKeeps(s: State)
    requires Inv(s) && Connecting(s.life)
    ensures Inv(MoveTo(s, s.life.op, Attempt(s.life.at.gen, Failing(s.life.at.stage.pid))))
  {
    hide SuccessfulStarts;
  }

  /** While files are in use or about to be removed, nothing is promised about them. */
  lemma FilesKeeps(s: State, socketFile: bool, authFile: Option<Token>, residue: set<Residue>)
    requires Inv(s)
    requires FilesOk(s.core, s.life, socketFile, authFile, residue)
    ensures Inv(s.(socketFile := socketFile, authFile := authFile, residue := residue))
  {
    hide SuccessfulStarts;
  }

  /** Only the calls in flight change. */
  lemma CallsOnlyKeeps(s: State, calls: map<nat, Call>)
    requires Inv(s) && CallsOk(calls, s.published)
    ensures Inv(s.(calls := calls))
  {
    hide SuccessfulStarts;
  }

  lemma SetPhaseKeeps(s: State, id: nat, phase: Phase)
    requires Inv(s) && id in s.calls
    ensures Inv(SetPhase(s, id, phase))
  {
    hide SuccessfulStarts;
    CallsOnlyKeeps(s, s.calls[id := s.calls[id].(phase := phase)]);
  }

  /** A server's log only grows, so what the supervisor won stays won. */
  lemma LogGrowthKeepsWin(g: Plugin, h: Plugin, token: Token)
    requires KernelWon(g, token) && h.kernelAuth == g.kernelAuth && g.server.log <= h.server.log
    ensures KernelWon(h, token)
  {
    var i :| 0 <= i < |g.server.log| && g.server.log[i] == AuthAccepted(Kernel, token);
    assert h.server.log[i] == AuthAccepted(Kernel, token);
  }

  /** Only one plugin's server changes, and its log grows. */
  lemma ServeKeeps(s: State, p: Pid, h: Plugin)
    requires Inv(s) && p in s.plugins && PluginOk(h)
    requires s.plugins[p].server.log <= h.server.log
    requires h.kernelAuth == s.plugins[p].kernelAuth
             || (&& s.plugins[p].kernelAuth.Pending? && h.kernelAuth.Answered?
                 && h.kernelAuth.token == s.plugins[p].kernelAuth.token)
    ensures Inv(Serve(s, p, h))
  {
    hide SuccessfulStarts, HistoryOk, CoreOk, LifeOk, ClientsOk, CallsOk, ProcessesOk, FilesOk, CloseOk, MonitorOk;
    var g := s.plugins[p];
    var after := s.plugins[p := h];
    forall token | KernelWon(g, token)
      ensures KernelWon(h, token)
    {
      LogGrowthKeepsWin(g, h, token);
    }
    assert PluginsOk(after, s.life, s.published, s.launched);
  }

  lemma GatedServeKeeps(s: State, p: Pid)
    requires Inv(s) && p in s.plugins
    ensures Inv(Serve(s, p, s.plugins[p].(server := HandleGated(s.plugins[p].server).0)))
  {
    hide SuccessfulStarts;
    var g := s.plugins[p];
    GateKeepsDiscipline(g.server);
    var g' := g.(server := HandleGated(g.server).0);
    if g.kernelAuth.Answered? && g.kernelAuth.ok {
      LogGrowthKeepsWin(g, g', g.kernelAuth.token);
    }
    ServeKeeps(s, p, g');
  }

  lemma PoisonedCoreKeeps(s: State, c: ClientId)
    requires Inv(s) && c in s.dialed
    requires Connecting(s.life) ==> s.life.at.stage.client != c
    ensures Inv(s.(core := Poison(s.core, c), poisoned := s.poisoned + {c}))
  {
    hide SuccessfulStarts;
  }

  // ----- the steps one by one -----

  lemma BeginKeeps(s: State, op: Op)
    requires Inv(s) && DoBegin(s, op).Some?
    ensures Inv(DoBegin(s, op).value)
  {
    hide SuccessfulStarts;
    if op == OpRestart(true) {
    } else {
    }
  }

  lemma EnterKeeps(s: State)
    requires Inv(s) && s.life.Busy? && s.life.at.Entered?
    ensures Inv(DoEnter(s).value)
  {
    hide SuccessfulStarts;
    var op := s.life.op;
    match op
    case OpStart => MoveKeeps(s, op, StartEntry);
    case OpRestart(_) =>
      if s.core.closed {
        ReturnKeeps(s, op, Some(Closed));
      } else {
        MoveKeeps(s, op, StopEntry);
      }
    case OpKill => MoveKeeps(s, op, StopEntry);
    case OpClose =>
      if s.closeOnce {
        ReturnKeeps(s, op, s.closeErr);
      } else {
        MoveKeeps(s, op, StopEntry);
      }
  }

  lemma ReservationKeeps(s: State)
    requires Inv(s) && s.life.Busy? && s.life.at.StartEntry?
    requires Reserve(s.cfg, s.core).Ok?
    ensures
      var m := Reserve(s.cfg, s.core).value;
      Inv(MoveTo(s.(core := m), s.life.op, Attempt(m.state.generation, Reserved)))
  {
    hide SuccessfulStarts;
  }

  lemma ReserveKeeps(s: State)
    requires Inv(s) && s.life.Busy? && s.life.at.StartEntry?
    ensures Inv(DoReserve(s).value)
  {
    hide SuccessfulStarts;
    var op := s.life.op;
    if s.core.closed {
      ReturnKeeps(s, op, Some(Closed));
    } else if s.core.cmd.Some? || s.core.client.Some? {
      ReturnKeeps(s, op, Some(AlreadyRunning));
    } else {
      ReservationKeeps(s);
    }
  }

  lemma RemoveStaleKeeps(s: State, a: bool, b: bool)
    requires Inv(s) && InAttempt(s.life) && s.life.at.stage.Reserved?
    ensures Inv(DoRemoveStale(s, a, b).value)
  {
    hide SuccessfulStarts;
  }

  lemma FilesFacts(s: State)
    requires Inv(s)
    ensures FilesOk(s.core, s.life, s.socketFile, s.authFile, s.residue)
  {
    hide SuccessfulStarts, HistoryOk, CoreOk, LifeOk, ClientsOk, CallsOk, ProcessesOk, FilesOk, CloseOk, MonitorOk;
    hide PluginsOk;
  }

  lemma MakeTokenKeeps(s: State, o: TokenOutcome)
    requires Inv(s) && InAttempt(s.life) && s.life.at.stage.Prepared?
    ensures Inv(DoMakeToken(s, o).value)
  {
    hide Inv;
    FilesFacts(s);
    var gen, op := s.life.at.gen, s.life.op;
    match o
    case NoToken => StageKeeps(s, Rolling(false));
    case NotWritten(left) =>
      var auth := if left.Some? then left else s.authFile;
      var residue := s.residue + {TokenNotWritten};
      FilesKeeps(s, s.socketFile, auth, residue);
      StageKeeps(s.(authFile := auth, residue := residue), Rolling(false));
    case Written(token) =>
      ArmedKeeps(s, token);
  }

  lemma ArmedKeeps(s: State, token: Token)
    requires Inv(s) && InAttempt(s.life) && s.life.at.stage.Prepared?
    ensures Inv(MoveTo(s.(authFile := Some(token)), s.life.op, Attempt(s.life.at.gen, Armed(token))))
  {
    hide SuccessfulStarts;
  }

  lemma LaunchedKeeps(s: State, p: Pid)
    requires Inv(s) && InAttempt(s.life) && s.life.at.stage.Armed? && p !in s.launched
    ensures Inv(MoveTo(s.(live := s.live + {p}, launched := s.launched + {p}),
                       s.life.op, Attempt(s.life.at.gen, Launched(s.life.at.stage.token, p))))
  {
    hide SuccessfulStarts;
  }

  lemma LaunchFailedKeeps(s: State)
    requires Inv(s) && InAttempt(s.life) && s.life.at.stage.Armed?
    ensures Inv(MoveTo(s.(residue := s.residue + {LaunchFailed}), s.life.op, Attempt(s.life.at.gen, Rolling(false))))
  {
    hide SuccessfulStarts;
  }

  lemma LaunchKeeps(s: State, p: Option<Pid>)
    requires Inv(s) && InAttempt(s.life) && s.life.at.stage.Armed? && DoLaunch(s, p).Some?
    ensures Inv(DoLaunch(s, p).value)
  {
    hide SuccessfulStarts;
    match p
    case None => LaunchFailedKeeps(s);
    case Some(pid) => LaunchedKeeps(s, pid);
  }

  lemma NewClientKeeps(s: State, c: ClientId)
    requires Inv(s) && c !in s.dialed
    ensures Inv(s.(dialed := s.dialed + {c}))
    ensures c !in s.poisoned && forall i :: 0 <= i < |s.published| ==> s.published[i].client != c
  {
    hide SuccessfulStarts;
  }

  lemma DialKeeps(s: State, c: Option<(ClientId, Pid)>)
    requires Inv(s) && InAttempt(s.life) && s.life.at.stage.Launched? && DoDial(s, c).Some?
    ensures Inv(DoDial(s, c).value)
  {
    hide SuccessfulStarts;
    var g := s.life.at.stage;
    match c
    case None => StageKeeps(s, Failing(g.pid));
    case Some((client, peer)) =>
      NewClientKeeps(s, client);
      StageKeeps(s.(dialed := s.dialed + {client}), Connected(g.token, g.pid, client, Verifying(peer)));
  }

  lemma RequestSentKeeps(s: State)
    requires Inv(s) && Connecting(s.life) && s.life.at.stage.handshake.Verifying? && s.life.at.stage.pid in s.plugins
    ensures
      var g := s.life.at.stage;
      Inv(s.(plugins := s.plugins[g.pid := s.plugins[g.pid].(kernelAuth := Pending(g.token))]))
  {
    hide SuccessfulStarts, CoreOk, CloseOk, MonitorOk;
  }

  lemma ConnectionFacts(s: State)
    requires Inv(s) && Connecting(s.life)
    ensures s.life.at.stage.client in s.dialed && s.life.at.stage.client !in s.poisoned
    ensures forall i :: 0 <= i < |s.published| ==> s.published[i].client != s.life.at.stage.client
  {
    hide SuccessfulStarts;
  }

  lemma VerifyPeerKeeps(s: State, r: bool)
    requires Inv(s) && Connecting(s.life) && s.life.at.stage.handshake.Verifying?
    ensures Inv(DoVerifyPeer(s, r).value)
  {
    hide Inv;
    var g := s.life.at.stage;
    if r && g.handshake.peer == g.pid && g.pid in s.plugins {
      RequestSentKeeps(s);
      ConnectionFacts(s);
      FilesFacts(s);
      StageKeeps(s.(plugins := s.plugins[g.pid := s.plugins[g.pid].(kernelAuth := Pending(g.token))]),
                 g.(handshake := Authenticating));
    } else {
      StageFailsKeeps(s);
    }
  }

  /** Replies to the operation's own calls, sent with epoch 0, are never found stale. */
  lemma InternalReplyCurrent(s: State, c: ClientId)
    requires Inv(s) && s.life.Busy? && (s.life.at.Attempt? || s.life.at.Stopping?)
    ensures FenceAccepts(s.core, c, s.life.at.gen, 0)
  {
    hide SuccessfulStarts;
  }

  lemma AuthSucceedsKeeps(s: State, r: bool)
    requires Inv(s) && Connecting(s.life) && s.life.at.stage.handshake.Authenticating?
    requires s.life.at.stage.pid in s.plugins
    requires s.plugins[s.life.at.stage.pid].kernelAuth.Answered? && s.plugins[s.life.at.stage.pid].kernelAuth.ok
    ensures
      var g := s.life.at.stage;
      Inv(MoveTo(s.(authFile := if r then None else s.authFile, residue := Cleared(s.residue, false, r)),
                 s.life.op, Attempt(s.life.at.gen, g.(handshake := FetchingCapabilities))))
  {
    hide SuccessfulStarts;
  }

  lemma AuthReplyKeeps(s: State, r: bool)
    requires Inv(s) && Connecting(s.life) && s.life.at.stage.handshake.Authenticating?
    requires s.life.at.stage.pid in s.plugins && s.plugins[s.life.at.stage.pid].kernelAuth.Answered?
    ensures Inv(DoAuthReply(s, r).value)
  {
    hide Inv;
    var g := s.life.at.stage;
    InternalReplyCurrent(s, g.client);
    var answer := s.plugins[g.pid].kernelAuth;
    if !answer.ok || answer.replyId != s.cfg.pluginId || answer.replyGen != s.life.at.gen {
      StageFailsKeeps(s);
    } else {
      AuthSucceedsKeeps(s, r);
    }
  }

  lemma CapsSucceedKeeps(s: State, caps: seq<string>)
    requires Inv(s) && Connecting(s.life) && s.life.at.stage.handshake.FetchingCapabilities?
    ensures
      Inv(MoveTo(s, s.life.op, Attempt(s.life.at.gen, s.life.at.stage.(handshake := Installing(caps)))))
  {
    hide SuccessfulStarts;
  }

  lemma CapsReplyKeeps(s: State, id: string, g: nat, caps: seq<string>)
    requires Inv(s) && Connecting(s.life) && s.life.at.stage.handshake.FetchingCapabilities?
    requires s.life.at.stage.pid in s.plugins && s.plugins[s.life.at.stage.pid].server.authUsed
    ensures Inv(DoCapsReply(s, id, g, caps).value)
  {
    hide Inv;
    var stage := s.life.at.stage;
    InternalReplyCurrent(s, stage.client);
    GatedServeKeeps(s, stage.pid);
    var served := Serve(s, stage.pid, s.plugins[stage.pid].(server := HandleGated(s.plugins[stage.pid].server).0));
    if id != s.cfg.pluginId || g != s.life.at.gen || CAPABILITIES_ERROR in caps {
      StageFailsKeeps(served);
    } else {
      CapsSucceedKeeps(served, caps);
    }
  }

  lemma HandshakeBrokenKeeps(s: State, p: bool)
    requires Inv(s) && Connecting(s.life)
    requires s.life.at.stage.handshake.Authenticating? || s.life.at.stage.handshake.FetchingCapabilities?
    ensures Inv(DoHandshakeBroken(s, p).value)
  {
    hide Inv;
    var g := s.life.at.stage;
    ConnectionFacts(s);
    StageFailsKeeps(s);
    if p {
      PoisonedCoreKeeps(MoveTo(s, s.life.op, Attempt(s.life.at.gen, Failing(g.pid))), g.client);
    }
  }

  lemma InstallHistory(s: State, t: State)
    requires Inv(s) && Connecting(s.life) && s.life.at.stage.handshake.Installing? && DoInstall(s) == Some(t)
    ensures HistoryOk(t.published, t.core.rpcEpoch, t.dialed, t.launched)
    ensures CallsOk(t.calls, t.published)
  {
    hide PluginsOk, CloseOk, MonitorOk, FilesOk, SuccessfulStarts;
  }

  lemma InstallPlugins(s: State, t: State)
    requires Inv(s) && Connecting(s.life) && s.life.at.stage.handshake.Installing? && DoInstall(s) == Some(t)
    ensures PluginsOk(t.plugins, t.life, t.published, t.launched)
  {
    hide CoreOk, LifeOk, ClientsOk, CloseOk, MonitorOk, FilesOk, CallsOk, SuccessfulStarts;
  }

  lemma InstallCore(s: State, t: State)
    requires Inv(s) && Connecting(s.life) && s.life.at.stage.handshake.Installing? && DoInstall(s) == Some(t)
    ensures CoreOk(t.cfg, t.core, t.life, t.published)
    ensures ClientsOk(t.core, t.life, t.published, t.dialed, t.poisoned)
    ensures ProcessesOk(t.core, t.life, t.published, t.live, t.launched, t.unreaped)
    ensures CloseOk(t.core, t.life, t.closeOnce, t.closeErr, t.closedCh, t.results)
    ensures MonitorOk(t.monitor, t.life, t.closedCh, t.restartsAfterClose)
  {
    hide SuccessfulStarts;
  }

  lemma InstallKeeps(s: State)
    requires Inv(s) && Connecting(s.life) && s.life.at.stage.handshake.Installing?
    ensures Inv(DoInstall(s).value)
  {
    hide HistoryOk, CallsOk, PluginsOk, CoreOk, ClientsOk, ProcessesOk, CloseOk, MonitorOk, SuccessfulStarts;
    var t := DoInstall(s).value;
    InstallHistory(s, t);
    InstallPlugins(s, t);
    InstallCore(s, t);
  }

  lemma AnnouncedKeeps(s: State)
    requires Inv(s) && InAnnouncement(s.life)
    ensures Inv(DoAnnounced(s).value)
  {
    hide SuccessfulStarts, HistoryOk, CallsOk;
    AppendResult(s.results, Returned(s.life.op, None));
  }

  lemma ReapKeeps(s: State, w: bool)
    requires Inv(s) && InAttempt(s.life) && s.life.at.stage.Failing?
    ensures Inv(DoReap(s, w).value)
  {
    hide SuccessfulStarts;
  }

  lemma RolledBackToCleanup(s: State)
    requires Inv(s) && InAttempt(s.life) && s.life.at.stage == Rolling(true)
    ensures Inv(MoveTo(s.(core := Rollback(s.cfg, s.core, s.life.at.gen)), s.life.op, FailedStart(s.life.at.gen)))
  {
    hide SuccessfulStarts;
    assert Rollback(s.cfg, s.core, s.life.at.gen).state == PluginState(s.cfg.pluginId, |s.published|, false, [], "", 0);
  }

  lemma RolledBackAndDone(s: State)
    requires Inv(s) && InAttempt(s.life) && s.life.at.stage == Rolling(false)
    ensures Inv(Return(s.(core := Rollback(s.cfg, s.core, s.life.at.gen)), s.life.op, Some(StartFailed)))
  {
    hide SuccessfulStarts;
    AppendResult(s.results, Returned(s.life.op, Some(StartFailed)));
    assert Rollback(s.cfg, s.core, s.life.at.gen).state == PluginState(s.cfg.pluginId, |s.published|, false, [], "", 0);
  }

  lemma RollbackKeeps(s: State)
    requires Inv(s) && InAttempt(s.life) && s.life.at.stage.Rolling?
    ensures Inv(DoRollback(s).value)
  {
    hide SuccessfulStarts;
    assert s.core.state.generation == s.life.at.gen;
    if s.life.at.stage.launched {
      RolledBackToCleanup(s);
    } else {
      RolledBackAndDone(s);
    }
  }

  lemma DetachCore(s: State, t: State)
    requires Inv(s) && s.life.Busy? && s.life.at.StopEntry? && !s.core.closed
    requires t == MoveTo(s.(core := Detach(s.core, s.life.op.OpClose?)), s.life.op,
                         Stopping(s.core.state.generation, WorkAfterDetach(s.core)))
    ensures CoreOk(t.cfg, t.core, t.life, t.published)
    ensures CloseOk(t.core, t.life, t.closeOnce, t.closeErr, t.closedCh, t.results)
    ensures ClientsOk(t.core, t.life, t.published, t.dialed, t.poisoned)
    ensures LifeOk(t.core, t.life)
    ensures ProcessesOk(t.core, t.life, t.published, t.live, t.launched, t.unreaped)
  {
    hide PluginsOk, MonitorOk, CallsOk, SuccessfulStarts;
    assert HeldByStop(WorkAfterDetach(s.core)) == HeldByManager(s.core);
  }

  lemma DetachMovesKeep(s: State)
    requires Inv(s) && s.life.Busy? && s.life.at.StopEntry? && !s.core.closed
    ensures
      Inv(MoveTo(s.(core := Detach(s.core, s.life.op.OpClose?)), s.life.op,
                 Stopping(s.core.state.generation, WorkAfterDetach(s.core))))
  {
    hide CoreOk, CloseOk, ProcessesOk, ClientsOk, LifeOk, CallsOk, SuccessfulStarts;
    DetachCore(s, MoveTo(s.(core := Detach(s.core, s.life.op.OpClose?)), s.life.op,
                         Stopping(s.core.state.generation, WorkAfterDetach(s.core))));
  }

  lemma StopKeeps(s: State)
    requires Inv(s) && s.life.Busy? && s.life.at.StopEntry?
    ensures Inv(DoStop(s).value)
  {
    hide SuccessfulStarts;
    if s.core.closed {
      StopReturnsKeeps(s, s.life.op, Some(Closed));
    } else {
      DetachMovesKeep(s);
    }
  }

  lemma ShutdownFacts(s: State)
    requires Inv(s) && s.life.Busy? && s.life.at.Stopping? && s.life.at.work.ShutdownCall?
    ensures PlaceOk(s.core, s.life.op, s.life.at) && s.core.client.None? && !s.closeOnce
    ensures s.life.at.work.client in s.dialed
    ensures HeldByOperation(s.life) <= s.launched
    ensures FenceAccepts(s.core, s.life.at.work.client, s.life.at.gen, 0)
  {
    hide SuccessfulStarts;
  }

  lemma ShutdownReplyKeeps(s: State, a: CallOutcome)
    requires Inv(s) && s.life.Busy? && s.life.at.Stopping? && s.life.at.work.ShutdownCall?
    ensures Inv(DoShutdownReply(s, a).value)
  {
    hide Inv;
    var c, gen, op := s.life.at.work.client, s.life.at.gen, s.life.op;
    var work := if s.life.at.work.proc.Some? then Waiting(s.life.at.work.proc.value) else CheckingOwner;
    ShutdownFacts(s);
    FilesFacts(s);
    if a.Broken? {
      PoisonedCoreKeeps(s, c);
      MoveKeeps(s.(core := Poison(s.core, c), poisoned := s.poisoned + {c}), op, Stopping(gen, work));
    } else {
      MoveKeeps(s, op, Stopping(gen, work));
    }
  }

  lemma ExitedKeeps(s: State)
    requires Inv(s) && s.life.Busy? && s.life.at.Stopping? && s.life.at.work.Waiting?
    ensures Inv(MoveTo(s.(live := s.live - {s.life.at.work.pid}), s.life.op, Stopping(s.life.at.gen, CheckingOwner)))
  {
    hide SuccessfulStarts;
  }

  lemma WaitKeeps(s: State, w: WaitOutcome)
    requires Inv(s) && s.life.Busy? && s.life.at.Stopping? && s.life.at.work.Waiting?
    ensures Inv(DoWait(s, w).value)
  {
    hide SuccessfulStarts;
    var op := s.life.op;
    if w.Exits? {
      ExitedKeeps(s);
    } else {
      var t := s.(unreaped := s.unreaped + {s.life.at.work.pid}, residue := s.residue + {NotReaped});
      assert Inv(t);
      StopReturnsKeeps(t, op, Some(StopFailed));
    }
  }

  /** Whoever asks to clean up finds that the runtime files are its own. */
  lemma CleanupAlwaysOwns(s: State)
    requires Inv(s) && s.life.Busy? && (s.life.at.Stopping? || s.life.at.FailedStart?)
    ensures CleanupOwns(s.core, s.life.at.gen)
  {
    hide SuccessfulStarts;
  }

  lemma CheckOwnerKeeps(s: State)
    requires Inv(s) && s.life.Busy?
    requires s.life.at.FailedStart? || (s.life.at.Stopping? && s.life.at.work.CheckingOwner?)
    ensures Inv(DoCheckOwner(s).value)
  {
    hide SuccessfulStarts;
    CleanupAlwaysOwns(s);
    if s.life.at.Stopping? {
      MoveKeeps(s, s.life.op, Removing(AfterStop));
    } else {
      MoveKeeps(s, s.life.op, Removing(AfterFailedStart));
    }
  }

  lemma RemovingFacts(s: State)
    requires Inv(s) && s.life.Busy? && s.life.at.Removing?
    ensures PlaceOk(s.core, s.life.op, s.life.at) && s.core.client.None? && !s.closeOnce
  {
    hide SuccessfulStarts;
  }

  /** What removals leave is accounted for, wherever the operation goes next. */
  lemma RemovalOk(
    m: Core, l: Lifecycle, socketFile: bool, authFile: Option<Token>, residue: set<Residue>, a: bool, b: bool)
    requires (LaunchFailed in residue ==> authFile.Some?) && !InAttempt(l)
    ensures FilesOk(m, l, socketFile && !a, if b then None else authFile, Cleared(residue + {RemovalFailed}, a, b))
  {
    assert !(a && b) ==> RemovalFailed in Cleared(residue + {RemovalFailed}, a, b);
  }

  lemma FilesRemovedKeeps(s: State, a: bool, b: bool)
    requires Inv(s) && s.life.Busy? && s.life.at.Removing?
    ensures
      var t := FilesRemoved(s, a, b);
      && Inv(t)
      && FilesOk(t.core, Idle, t.socketFile, t.authFile, t.residue)
      && FilesOk(t.core, Busy(t.life.op, LogClosing), t.socketFile, t.authFile, t.residue)
      && t.life == s.life
  {
    FilesFacts(s);
    RemovalOk(s.core, s.life, s.socketFile, s.authFile, s.residue, a, b);
    RemovalOk(s.core, Idle, s.socketFile, s.authFile, s.residue, a, b);
    RemovalOk(s.core, Busy(s.life.op, LogClosing), s.socketFile, s.authFile, s.residue, a, b);
    hide Inv, FilesOk, Cleared;
    RemovingFacts(s);
    FilesKeeps(s, s.socketFile && !a, if b then None else s.authFile, Cleared(s.residue + {RemovalFailed}, a, b));
  }

  lemma CleanupReturnsKeeps(s: State, op: Op, after: After)
    requires Inv(s) && s.life == Busy(op, Removing(after))
    requires FilesOk(s.core, Idle, s.socketFile, s.authFile, s.residue)
    requires FilesOk(s.core, Busy(op, LogClosing), s.socketFile, s.authFile, s.residue)
    ensures Inv(CleanupReturns(s, op, after))
  {
    hide Inv, FilesOk;
    RemovingFacts(s);
    match after
    case AfterStop => StopReturnsKeeps(s, op, None);
    case AfterFailedStart => ReturnKeeps(s, op, Some(StartFailed));
    case AfterClose => MoveKeeps(s, op, LogClosing);
  }

  lemma RemoveFilesKeeps(s: State, a: bool, b: bool)
    requires Inv(s) && s.life.Busy? && s.life.at.Removing?
    ensures Inv(DoRemoveFiles(s, a, b).value)
  {
    hide Inv, FilesOk, FilesRemoved, CleanupReturns;
    FilesRemovedKeeps(s, a, b);
    CleanupReturnsKeeps(FilesRemoved(s, a, b), s.life.op, s.life.at.after);
  }

  lemma MarkKeeps(s: State)
    requires Inv(s) && s.life.Busy? && s.life.at.CloseMarking?
    ensures Inv(DoMark(s).value)
  {
    hide SuccessfulStarts;
  }

  lemma CloseLogKeeps(s: State, ok: bool)
    requires Inv(s) && s.life.Busy? && s.life.at.LogClosing?
    ensures Inv(DoCloseLog(s, ok).value)
  {
    hide SuccessfulStarts, CallsOk, HistoryOk;
    var err := if s.closeErr.None? && !ok then Some(LogCloseFailed) else s.closeErr;
    AppendResult(s.results, Returned(s.life.op, err));
  }

  lemma CaptureKeeps(s: State, id: nat, k: Kind)
    requires Inv(s) && DoCapture(s, id, k).Some?
    ensures Inv(DoCapture(s, id, k).value)
  {
    hide SuccessfulStarts;
  }

  lemma CallReturnsKeeps(s: State, id: nat, r: CallOutcome)
    requires Inv(s) && DoCallReturns(s, id, r).Some?
    ensures Inv(DoCallReturns(s, id, r).value)
  {
    hide SuccessfulStarts;
    var c := s.calls[id];
    match r
    case AppError => SetPhaseKeeps(s, id, Done(Failed));
    case Broken => SetPhaseKeeps(s, id, Poisoning);
    case Reply(healthy) =>
      if !FenceAccepts(s.core, c.client.value, c.generation, c.epoch) {
        SetPhaseKeeps(s, id, Done(Stale));
      } else if c.kind.Heartbeat? {
        SetPhaseKeeps(s, id, Committing(healthy));
      } else {
        SetPhaseKeeps(s, id, Done(Accepted));
      }
  }

  lemma CommittedCoreKeeps(s: State, c: ClientId, generation: nat, epoch: nat, healthy: bool)
    requires Inv(s)
    ensures Inv(s.(core := CommitHeartbeat(s.core, c, generation, epoch, healthy)))
  {
    hide SuccessfulStarts;
  }

  lemma PoisonKeeps(s: State, id: nat)
    requires Inv(s) && DoPoison(s, id).Some?
    ensures Inv(DoPoison(s, id).value)
  {
    hide SuccessfulStarts;
    var c := s.calls[id].client.value;
    assert CapturedOk(s.calls[id], s.published);
    PoisonedCoreKeeps(s, c);
    SetPhaseKeeps(s.(core := Poison(s.core, c), poisoned := s.poisoned + {c}), id, Done(Failed));
  }

  lemma CommitKeeps(s: State, id: nat)
    requires Inv(s) && DoCommit(s, id).Some?
    ensures Inv(DoCommit(s, id).value)
  {
    hide SuccessfulStarts;
    var c := s.calls[id];
    CommittedCoreKeeps(s, c.client.value, c.generation, c.epoch, c.phase.healthy);
    var t := s.(core := CommitHeartbeat(s.core, c.client.value, c.generation, c.epoch, c.phase.healthy));
    SetPhaseKeeps(t, id, DoCommit(s, id).value.calls[id].phase);
  }

  lemma MonitorPollKeeps(s: State, id: nat)
    requires Inv(s) && DoMonitorPoll(s, id).Some?
    ensures Inv(DoMonitorPoll(s, id).value)
  {
    hide SuccessfulStarts;
  }

  lemma MonitorObserveKeeps(s: State)
    requires Inv(s) && DoMonitorObserve(s).Some?
    ensures Inv(DoMonitorObserve(s).value)
  {
    hide SuccessfulStarts;
  }

  lemma MonitorDecideKeeps(s: State)
    requires Inv(s) && DoMonitorDecide(s).Some?
    ensures Inv(DoMonitorDecide(s).value)
  {
    hide SuccessfulStarts;
  }

  lemma MonitorCancelKeeps(s: State)
    requires Inv(s) && s.monitor.Ticking?
    ensures Inv(s.(monitor := Exited))
  {
    hide SuccessfulStarts;
  }

  /** With no process launched, only one that nobody waits for can open the socket. */
  lemma BootFiles(s: State, p: Pid, residue: set<Residue>)
    requires Inv(s) && p in s.live && residue == if p in s.unreaped then s.residue + {StrayBoot} else s.residue
    ensures Inv(s.(socketFile := true, residue := residue))
  {
    hide SuccessfulStarts, PluginsOk, CloseOk, MonitorOk, CallsOk, ClientsOk, HistoryOk;
  }

  lemma BootServer(s: State, p: Pid, token: Token)
    requires Inv(s) && p in s.live && p !in s.plugins
    ensures Inv(s.(plugins := s.plugins[p := Plugin(Boot(token), NotSent)]))
  {
    hide SuccessfulStarts, CloseOk, MonitorOk, CallsOk, ClientsOk, HistoryOk, CoreOk, LifeOk, FilesOk;
  }

  lemma BootKeeps(s: State, p: Pid)
    requires Inv(s) && p in s.live && p !in s.plugins && s.authFile.Some?
    ensures Inv(DoBoot(s, p).value)
  {
    hide Inv;
    var residue := if p in s.unreaped then s.residue + {StrayBoot} else s.residue;
    BootFiles(s, p, residue);
    BootServer(s.(socketFile := true, residue := residue), p, s.authFile.value);
  }

  lemma ExitKeeps(s: State, p: Pid, u: bool)
    requires Inv(s) && DoExit(s, p, u).Some?
    ensures Inv(DoExit(s, p, u).value)
  {
    hide SuccessfulStarts;
  }

  lemma StrangerAuthKeeps(s: State, p: Pid, t: Token, h: bool)
    requires Inv(s) && DoStrangerAuth(s, p, t, h).Some?
    ensures Inv(DoStrangerAuth(s, p, t, h).value)
  {
    hide SuccessfulStarts;
    var g := s.plugins[p];
    AuthKeepsDiscipline(g.server, Stranger, t, h);
    var g' := g.(server := HandleAuth(g.server, Stranger, t, h).0);
    if g.kernelAuth.Answered? && g.kernelAuth.ok {
      LogGrowthKeepsWin(g, g', g.kernelAuth.token);
    }
    ServeKeeps(s, p, g');
  }

  lemma KernelAuthServedKeeps(s: State, p: Pid, h: bool, id: string, g: nat)
    requires Inv(s) && DoKernelAuthServed(s, p, h, id, g).Some?
    ensures Inv(DoKernelAuthServed(s, p, h, id, g).value)
  {
    hide SuccessfulStarts;
    var plugin := s.plugins[p];
    var token := plugin.kernelAuth.token;
    AuthKeepsDiscipline(plugin.server, Kernel, token, h);
    var (server, ok) := HandleAuth(plugin.server, Kernel, token, h);
    var plugin' := Plugin(server, Answered(token, ok, id, g));
    if ok {
      assert server.log[|plugin.server.log|] == AuthAccepted(Kernel, token);
    }
    ServeKeeps(s, p, plugin');
  }

  lemma GatedServedKeeps(s: State, p: Pid)
    requires Inv(s) && DoGatedServed(s, p).Some?
    ensures Inv(DoGatedServed(s, p).value)
  {
    hide SuccessfulStarts;
    GatedServeKeeps(s, p);
  }

  lemma StartingStepKeeps(s: State, e: Step)
    requires Inv(s) && IsStartingStep(e) && StartingNext(s, e).Some?
    ensures Inv(StartingNext(s, e).value)
  {
    hide Inv;
    match e
    case Begin(op) => BeginKeeps(s, op);
    case Enter => EnterKeeps(s);
    case ReserveStep => ReserveKeeps(s);
    case RemoveStale(a, b) => RemoveStaleKeeps(s, a, b);
    case MakeToken(o) => MakeTokenKeeps(s, o);
    case Launch(p) => LaunchKeeps(s, p);
  }

  lemma HandshakeStepKeeps(s: State, e: Step)
    requires Inv(s) && IsHandshakeStep(e) && HandshakeNext(s, e).Some?
    ensures Inv(HandshakeNext(s, e).value)
  {
    hide Inv;
    match e
    case Dial(c) => DialKeeps(s, c);
    case VerifyPeer(r) => VerifyPeerKeeps(s, r);
    case AuthReply(r) => AuthReplyKeeps(s, r);
    case CapsReply(id, g, caps) => CapsReplyKeeps(s, id, g, caps);
    case HandshakeBroken(p) => HandshakeBrokenKeeps(s, p);
    case InstallStep => InstallKeeps(s);
    case Announced => AnnouncedKeeps(s);
  }

  lemma UndoingStepKeeps(s: State, e: Step)
    requires Inv(s) && IsUndoingStep(e) && UndoingNext(s, e).Some?
    ensures Inv(UndoingNext(s, e).value)
  {
    hide Inv;
    match e
    case Reap(w) => ReapKeeps(s, w);
    case RollbackStep => RollbackKeeps(s);
    case StopStep => StopKeeps(s);
    case ShutdownReply(a) => ShutdownReplyKeeps(s, a);
  }

  lemma StoppingStepKeeps(s: State, e: Step)
    requires Inv(s) && IsStoppingStep(e) && StoppingNext(s, e).Some?
    ensures Inv(StoppingNext(s, e).value)
  {
    hide Inv;
    match e
    case WaitStep(w) => WaitKeeps(s, w);
    case CheckOwner => CheckOwnerKeeps(s);
    case RemoveFiles(a, b) => RemoveFilesKeeps(s, a, b);
    case MarkStep => MarkKeeps(s);
    case CloseLog(ok) => CloseLogKeeps(s, ok);
  }

  lemma CallingStepKeeps(s: State, e: Step)
    requires Inv(s) && IsCallingStep(e) && CallingNext(s, e).Some?
    ensures Inv(CallingNext(s, e).value)
  {
    hide Inv;
    match e
    case Capture(id, k) => CaptureKeeps(s, id, k);
    case CallReturns(id, r) => CallReturnsKeeps(s, id, r);
    case PoisonStep(id) => PoisonKeeps(s, id);
    case CommitStep(id) => CommitKeeps(s, id);
    case MonitorPoll(id) => MonitorPollKeeps(s, id);
    case MonitorObserve => MonitorObserveKeeps(s);
    case MonitorDecide => MonitorDecideKeeps(s);
    case MonitorCancel => MonitorCancelKeeps(s);
  }

  lemma PluginStepKeeps(s: State, e: Step)
    requires Inv(s) && IsPluginStep(e) && PluginNext(s, e).Some?
    ensures Inv(PluginNext(s, e).value)
  {
    hide Inv;
    match e
    case BootPlugin(p) => BootKeeps(s, p);
    case ExitPlugin(p, u) => ExitKeeps(s, p, u);
    case StrangerAuth(p, t, h) => StrangerAuthKeeps(s, p, t, h);
    case KernelAuthServed(p, h, id, g) => KernelAuthServedKeeps(s, p, h, id, g);
    case GatedServed(p) => GatedServedKeeps(s, p);
  }

  /** Every possible step keeps the invariant. */
  lemma NextKeeps(s: State, e: Step)
    requires Inv(s) && Next(s, e).Some?
    ensures Inv(Next(s, e).value)
  {
    hide Inv, StartingNext, HandshakeNext, UndoingNext, StoppingNext, CallingNext, PluginNext;
    if IsStartingStep(e) {
      StartingStepKeeps(s, e);
    } else if IsHandshakeStep(e) {
      HandshakeStepKeeps(s, e);
    } else if IsUndoingStep(e) {
      UndoingStepKeeps(s, e);
    } else if IsStoppingStep(e) {
      StoppingStepKeeps(s, e);
    } else if IsCallingStep(e) {
      CallingStepKeeps(s, e);
    } else {
      PluginStepKeeps(s, e);
    }
  }

  /** Every state that any run passes through satisfies the invariant. */
  lemma {:induction false} RunKeeps(s: State, es: seq<Step>)
    requires Inv(s) && RunFrom(s, es).Some?
    ensures Inv(RunFrom(s, es).value)
    decreases |es|
  {
    hide Inv;
    if es != [] {
      NextKeeps(s, es[0]);
      RunKeeps(Next(s, es[0]).value, es[1..]);
    }
  }

  lemma ReachableInv(s: State)
    requires Reachable(s)
    ensures Inv(s)
  {
    var cfg, socketFile, authFile, es :| ReachableBy(s, cfg, socketFile, authFile, es);
    InitInv(cfg, socketFile, authFile);
    RunKeeps(Init(cfg, socketFile, authFile), es);
  }
}
