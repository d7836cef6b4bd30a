/**
 What an operation has done when it returns: under any interleaving, and exactly, if calls and monitor keep still.
 */
module SupervisorOperations {
  import opened Options
  import opened ManagerCore
  import opened PluginServer
  import opened Supervisor
  import opened SupervisorInvariant

  // ----- what the end of an operation means -----

  predicate IsStopped(m: Core) {
    m.cmd.None? && m.client.None? && !m.state.healthy && m.state.pid == 0
  }

  /** A process is attached, of the latest generation, over its own connection unless that was poisoned meanwhile. */
  predicate IsRunning(s: State) {
    && s.core.cmd.Some? && s.published != []
    && s.core.state.generation == |s.published|
    && s.core.cmd.value == Last(s.published).pid
    && s.core.state.capabilities == Last(s.published).caps
    && (s.core.client == Some(Last(s.published).client)
        || (s.core.client.None? && Last(s.published).client in s.poisoned && !s.core.state.healthy))
  }

  /** What a caller knows when an operation returns. */
  predicate EndsAs(s: State, t: State, r: Returned) {
    && t.published == s.published
    && if r.err.None? && (r.op.OpStart? || r.op.OpRestart?) then
         IsRunning(t) && t.core == s.core
       else if r.err == Some(AlreadyRunning) && r.op.OpStart? then
         t.core == s.core && t.core.cmd.Some?
       else
         && IsStopped(t.core)
         && (r.err == Some(Closed) || r.op.OpClose? ==> t.core.closed)
  }

  lemma StoppedFromCmd(s: State)
    requires Inv(s) && s.core.cmd.None?
    ensures IsStopped(s.core)
  {
    hide SuccessfulStarts, PluginsOk, CloseOk, MonitorOk, ProcessesOk, FilesOk, CallsOk, ClientsOk, HistoryOk;
  }

  lemma ClosedHasNoCmd(s: State)
    requires Inv(s)
    ensures s.core.closed ==> s.core.cmd.None?
    ensures s.core.client.Some? ==> s.core.cmd.Some?
    ensures InAttempt(s.life) ==> s.core.cmd.None?
    ensures s.life.Busy? ==> PlaceOk(s.core, s.life.op, s.life.at)
    ensures s.life.Busy? && s.life.at.LogClosing? ==> s.core.closed
    ensures s.closeOnce ==> s.core.closed
  {
    hide SuccessfulStarts, PluginsOk, MonitorOk, ProcessesOk, FilesOk, CallsOk, ClientsOk, HistoryOk;
  }

  ghost predicate EndsWell(s: State, t: State) {
    t.results == s.results || exists r :: t.results == s.results + [r] && EndsAs(s, t, r)
  }

  lemma EndedBy(s: State, t: State, r: Returned)
    requires t.results == s.results + [r] && EndsAs(s, t, r)
    ensures EndsWell(s, t)
  {
  }

  lemma StoppedEnd(s: State, t: State, r: Returned)
    requires Inv(t) && t.core.cmd.None? && t.published == s.published && t.results == s.results + [r]
    requires !(r.err.None? && (r.op.OpStart? || r.op.OpRestart?)) && (r.op.OpStart? ==> r.err != Some(AlreadyRunning))
    requires r.err == Some(Closed) || r.op.OpClose? ==> t.core.closed
    ensures EndsWell(s, t)
  {
    hide Inv;
    StoppedFromCmd(t);
    EndedBy(s, t, r);
  }

  lemma EnterEnds(s: State, t: State)
    requires Inv(s) && Inv(t) && DoEnter(s) == Some(t)
    ensures EndsWell(s, t)
  {
    hide Inv, EndsWell;
    ClosedHasNoCmd(s);
    assert s.life.Busy? && s.life.at.Entered?;
    var op := s.life.op;
    if op.OpRestart? && s.core.closed {
      StoppedEnd(s, t, Returned(op, Some(Closed)));
    } else if op.OpClose? && s.closeOnce {
      StoppedEnd(s, t, Returned(op, s.closeErr));
    } else {
      Unended(s, t);
    }
  }

  lemma Unended(s: State, t: State)
    requires t.results == s.results
    ensures EndsWell(s, t)
  {
  }

  lemma ReserveEnds(s: State, t: State)
    requires Inv(s) && Inv(t) && DoReserve(s) == Some(t)
    ensures EndsWell(s, t)
  {
    hide Inv, EndsWell;
    ClosedHasNoCmd(s);
    RestartFindsItStopped(s);
    var op := s.life.op;
    if s.core.closed {
      StoppedEnd(s, t, Returned(op, Some(Closed)));
    } else if s.core.cmd.Some? || s.core.client.Some? {
      EndedBy(s, t, Returned(op, Some(AlreadyRunning)));
    } else {
      Unended(s, t);
    }
  }

  lemma RestartFindsItStopped(s: State)
    requires Inv(s) && s.life.Busy? && s.life.at.StartEntry?
    ensures s.life.op.OpRestart? ==> s.core.cmd.None?
  {
    hide SuccessfulStarts, PluginsOk, MonitorOk, ProcessesOk, FilesOk, CallsOk, ClientsOk, HistoryOk;
  }

  lemma RunningFacts(s: State, op: Op)
    requires Inv(s) && s.core.cmd.Some?
    ensures IsRunning(s)
  {
    hide SuccessfulStarts, PluginsOk, CloseOk, MonitorOk, ProcessesOk, FilesOk, CallsOk, HistoryOk;
  }

  lemma AnnouncedEnds(s: State, t: State)
    requires Inv(s) && Inv(t) && DoAnnounced(s) == Some(t)
    ensures EndsWell(s, t)
  {
    RunningFacts(t, s.life.op);
    hide Inv, EndsWell;
    EndedBy(s, t, Returned(s.life.op, None));
  }

  lemma RollbackEnds(s: State, t: State)
    requires Inv(s) && Inv(t) && DoRollback(s) == Some(t)
    ensures EndsWell(s, t)
  {
    hide Inv, EndsWell;
    ClosedHasNoCmd(s);
    if s.life.at.stage.launched {
      Unended(s, t);
    } else {
      StoppedEnd(s, t, Returned(s.life.op, Some(StartFailed)));
    }
  }

  lemma StopEnds(s: State, t: State)
    requires Inv(s) && Inv(t) && DoStop(s) == Some(t)
    ensures EndsWell(s, t)
  {
    hide Inv, EndsWell;
    ClosedHasNoCmd(s);
    if s.core.closed && (s.life.op.OpKill? || s.life.op.OpRestart?) {
      StoppedEnd(s, t, Returned(s.life.op, Some(Closed)));
    } else {
      Unended(s, t);
    }
  }

  lemma WaitEnds(s: State, t: State, w: WaitOutcome)
    requires Inv(s) && Inv(t) && DoWait(s, w) == Some(t)
    ensures EndsWell(s, t)
  {
    hide Inv, EndsWell;
    ClosedHasNoCmd(s);
    if !w.Exits? && (s.life.op.OpKill? || s.life.op.OpRestart?) {
      StoppedEnd(s, t, Returned(s.life.op, Some(StopFailed)));
    } else {
      Unended(s, t);
    }
  }

  lemma CheckOwnerEnds(s: State, t: State)
    requires Inv(s) && s.life.Busy? && (s.life.at.FailedStart? || s.life.at.Stopping?) && DoCheckOwner(s) == Some(t)
    ensures EndsWell(s, t)
  {
    hide Inv, EndsWell;
    CleanupAlwaysOwns(s);
    Unended(s, t);
  }

  lemma RemoveFilesEnds(s: State, t: State, a: bool, b: bool)
    requires Inv(s) && Inv(t) && DoRemoveFiles(s, a, b) == Some(t)
    ensures EndsWell(s, t)
  {
    hide Inv, EndsWell;
    ClosedHasNoCmd(s);
    var op, after := s.life.op, s.life.at.after;
    if after.AfterFailedStart? {
      StoppedEnd(s, t, Returned(op, Some(StartFailed)));
    } else if after.AfterStop? && op.OpKill? {
      StoppedEnd(s, t, Returned(op, None));
    } else {
      Unended(s, t);
    }
  }

  lemma CloseLogEnds(s: State, t: State, ok: bool)
    requires Inv(s) && Inv(t) && DoCloseLog(s, ok) == Some(t)
    ensures EndsWell(s, t)
  {
    hide Inv, EndsWell;
    ClosedHasNoCmd(s);
    StoppedEnd(s, t, Returned(s.life.op, t.closeErr));
  }

  lemma PreparingEndsNothing(s: State, e: Step)
    requires (e.Begin? || e.RemoveStale? || e.MakeToken? || e.Launch?) && StartingNext(s, e).Some?
    ensures StartingNext(s, e).value.results == s.results
  {
    hide DoEnter, DoReserve;
  }

  lemma StartingEnds(s: State, e: Step)
    requires Inv(s) && IsStartingStep(e) && StartingNext(s, e).Some?
    ensures EndsWell(s, StartingNext(s, e).value)
  {
    StartingStepKeeps(s, e);
    hide Inv, EndsWell, EndsAs, DoEnter, DoReserve, DoBegin, DoRemoveStale, DoMakeToken, DoLaunch;
    var t := StartingNext(s, e).value;
    match e
    case Enter => EnterEnds(s, t);
    case ReserveStep => ReserveEnds(s, t);
    case _ =>
      PreparingEndsNothing(s, e);
      Unended(s, t);
  }

  lemma DialEndsNothing(s: State, e: Step)
    requires IsHandshakeStep(e) && !e.AuthReply? && !e.CapsReply? && !e.Announced? && HandshakeNext(s, e).Some?
    ensures HandshakeNext(s, e).value.results == s.results
  {
    hide DoAuthReply, DoCapsReply, DoAnnounced, Install, Poison;
  }

  lemma ReplyEndsNothing(s: State, e: Step)
    requires (e.AuthReply? || e.CapsReply?) && HandshakeNext(s, e).Some?
    ensures HandshakeNext(s, e).value.results == s.results
  {
    hide DoDial, DoVerifyPeer, DoHandshakeBroken, DoInstall, DoAnnounced, Cleared, HandleGated, FenceAccepts;
  }

  lemma HandshakeEnds(s: State, e: Step)
    requires Inv(s) && IsHandshakeStep(e) && HandshakeNext(s, e).Some?
    ensures EndsWell(s, HandshakeNext(s, e).value)
  {
    HandshakeStepKeeps(s, e);
    hide Inv, EndsWell, EndsAs;
    hide DoDial, DoVerifyPeer, DoAuthReply, DoCapsReply, DoHandshakeBroken, DoInstall, DoAnnounced;
    var t := HandshakeNext(s, e).value;
    if e.Announced? {
      AnnouncedEnds(s, t);
    } else if e.AuthReply? || e.CapsReply? {
      ReplyEndsNothing(s, e);
      Unended(s, t);
    } else {
      DialEndsNothing(s, e);
      Unended(s, t);
    }
  }

  lemma ReapAndShutdownEndNothing(s: State, e: Step)
    requires (e.Reap? || e.ShutdownReply?) && UndoingNext(s, e).Some?
    ensures UndoingNext(s, e).value.results == s.results
  {
    hide DoRollback, DoStop;
  }

  lemma UndoingEnds(s: State, e: Step)
    requires Inv(s) && IsUndoingStep(e) && UndoingNext(s, e).Some?
    ensures EndsWell(s, UndoingNext(s, e).value)
  {
    UndoingStepKeeps(s, e);
    hide Inv, EndsWell, EndsAs, DoReap, DoRollback, DoStop, DoShutdownReply;
    var t := UndoingNext(s, e).value;
    match e
    case RollbackStep => RollbackEnds(s, t);
    case StopStep => StopEnds(s, t);
    case _ =>
      ReapAndShutdownEndNothing(s, e);
      Unended(s, t);
  }

  lemma StoppingEnds(s: State, e: Step)
    requires Inv(s) && IsStoppingStep(e) && StoppingNext(s, e).Some?
    ensures EndsWell(s, StoppingNext(s, e).value)
  {
    StoppingStepKeeps(s, e);
    hide Inv, EndsWell, EndsAs;
    var t := StoppingNext(s, e).value;
    match e
    case WaitStep(w) => WaitEnds(s, t, w);
    case CheckOwner => CheckOwnerEnds(s, t);
    case RemoveFiles(a, b) => RemoveFilesEnds(s, t, a, b);
    case CloseLog(ok) => CloseLogEnds(s, t, ok);
    case MarkStep => Unended(s, t);
  }

  /**
   Whatever calls, monitor and processes did in the meantime: when a start or restart returns success, the process
   of the latest generation is attached, over its own connection or, if a call has poisoned that since it was
   published, over none; a start that finds the plugin running leaves it alone; and every other operation leaves
   the manager stopped, with no client, no process and unhealthy.
   */
  lemma OperationsEndAsPromised(s: State, e: Step)
    requires Reachable(s) && Next(s, e).Some?
    ensures EndsWell(s, Next(s, e).value)
  {
    ReachableInv(s);
    hide Inv, EndsWell, StartingNext, HandshakeNext, UndoingNext, StoppingNext, CallingNext, PluginNext;
    if IsStartingStep(e) {
      StartingEnds(s, e);
    } else if IsHandshakeStep(e) {
      HandshakeEnds(s, e);
    } else if IsUndoingStep(e) {
      UndoingEnds(s, e);
    } else if IsStoppingStep(e) {
      StoppingEnds(s, e);
    } else {
      OthersEndNothing(s, e);
      Unended(s, Next(s, e).value);
    }
  }

  lemma OthersEndNothing(s: State, e: Step)
    requires Next(s, e).Some? && (IsCallingStep(e) || IsPluginStep(e))
    ensures Next(s, e).value.results == s.results
  {
    hide StartingNext, HandshakeNext, UndoingNext, StoppingNext;
  }

  // ----- operations that nobody interrupts -----

  /** The manager after a whole operation, given what the world does to it. */
  function Alone(cfg: Config, m: Core, op: Op, reaped: bool, world: StartWorld): Core {
    match op
    case OpStart => StartAlone(cfg, m, world).0
    case OpRestart(_) => RestartAlone(cfg, m, reaped, world).0
    case OpKill => KillAlone(m, reaped).0
    case OpClose => CloseAlone(m)
  }

  function StopError(m: Core, reaped: bool): Option<Failure> {
    if m.closed then Some(Closed) else if m.cmd.Some? && !reaped then Some(StopFailed) else None
  }

  function StartError(m: Core, world: StartWorld): Option<Failure> {
    if m.closed then Some(Closed)
    else if m.cmd.Some? || m.client.Some? then Some(AlreadyRunning)
    else if world.StartFails? then Some(StartFailed)
    else None
  }

  /** The error it returns; a Close that is not the first returns the error of the first. */
  function ErrorAlone(s: State, op: Op, reaped: bool, world: StartWorld, logOk: bool): Option<Failure> {
    match op
    case OpStart => StartError(s.core, world)
    case OpKill => StopError(s.core, reaped)
    case OpRestart(_) =>
      if StopError(s.core, reaped).Some? then StopError(s.core, reaped)
      else if world.StartFails? then Some(StartFailed) else None
    case OpClose =>
      if s.closeOnce then s.closeErr
      else if StopError(s.core, reaped).Some? then StopError(s.core, reaped)
      else if logOk then None else Some(LogCloseFailed)
  }

  /** Whether the error is None is what the whole operations of the manager object report. */
  lemma ErrorsAgree(s: State, reaped: bool, world: StartWorld, logOk: bool)
    ensures ErrorAlone(s, OpStart, reaped, world, logOk).None? == StartAlone(s.cfg, s.core, world).1
    ensures ErrorAlone(s, OpKill, reaped, world, logOk).None? == KillAlone(s.core, reaped).1
    ensures forall m :: ErrorAlone(s, OpRestart(m), reaped, world, logOk).None? ==
                        RestartAlone(s.cfg, s.core, reaped, world).1
  {
  }

  /** What the start, or the start within a restart, begins with. */
  function Base(m: Core, op: Op): Core {
    if op.OpStart? then m else Detach(m, false)
  }

  predicate MayStart(m: Core, op: Op, reaped: bool) {
    op.OpStart? || (op.OpRestart? && StopError(m, reaped).None?)
  }

  predicate Detached(before: Core, op: Op, now: Core) {
    !before.closed && !op.OpStart? && now == Detach(before, op.OpClose?)
  }

  predicate Undone(cfg: Config, before: Core, op: Op, reaped: bool, world: StartWorld, now: Core) {
    && MayStart(before, op, reaped) && world.StartFails?
    && Reserve(cfg, Base(before, op)).Ok?
    && now == StartAlone(cfg, Base(before, op), world).0
  }

  /** The outcomes of one operation: of its wait, of its attempt to start, and of closing the log. */
  datatype Outcomes = Outcomes(reaped: bool, world: StartWorld, logOk: bool)

  /** How the manager has changed since the operation began, by the place the operation has come to. */
  predicate Tracks(before: State, op: Op, o: Outcomes, s: State)
    requires s.life.Busy?
  {
    var cfg, m, now := before.cfg, before.core, s.core;
    match s.life.at
    case Entered => now == m && s.closeOnce == before.closeOnce && s.closeErr == before.closeErr
    case StopEntry => now == m && !op.OpStart? && (op.OpClose? ==> !before.closeOnce)
    case StartEntry => MayStart(m, op, o.reaped) && now == Base(m, op)
    case Attempt(gen, _) =>
      && MayStart(m, op, o.reaped)
      && Reserve(cfg, Base(m, op)) == Ok(now)
      && gen == now.state.generation
    case Announcing => MayStart(m, op, o.reaped) && StartAlone(cfg, Base(m, op), o.world) == (now, true)
    case FailedStart(_) => Undone(cfg, m, op, o.reaped, o.world, now)
    case Stopping(_, work) =>
      && Detached(m, op, now) && (op.OpClose? ==> !before.closeOnce)
      && (work.ShutdownCall? ==> work.proc == m.cmd)
      && (work.Waiting? ==> m.cmd == Some(work.pid))
      && (work.CheckingOwner? ==> StopError(m, o.reaped).None?)
    case Removing(after) =>
      && (after.AfterStop? ==>
            Detached(m, op, now) && StopError(m, o.reaped).None? && (op.OpClose? ==> !before.closeOnce))
      && (after.AfterFailedStart? ==> Undone(cfg, m, op, o.reaped, o.world, now))
      && (after.AfterClose? ==> Closing(before, op, o, s) && now == CloseAlone(m))
    case CloseMarking => Closing(before, op, o, s) && now == if m.closed then m else Detach(m, true)
    case LogClosing => Closing(before, op, o, s) && now == CloseAlone(m)
  }

  /** The first close is past its stop and has kept the stop's error. */
  predicate Closing(before: State, op: Op, o: Outcomes, s: State) {
    op.OpClose? && !before.closeOnce && s.closeErr == StopError(before.core, o.reaped)
  }

  /** The operation has returned with what it has when nobody interrupts it. */
  predicate Returns(before: State, op: Op, o: Outcomes, s: State, t: State) {
    && t.results == s.results + [Returned(op, ErrorAlone(before, op, o.reaped, o.world, o.logOk))]
    && t.core == Alone(before.cfg, before.core, op, o.reaped, o.world)
  }

  /** The operation is under way as tracked, or has just returned. */
  predicate Goes(before: State, op: Op, o: Outcomes, s: State, t: State) {
    if t.life.Busy? then t.life.op == op && t.results == s.results && Tracks(before, op, o, t)
    else Returns(before, op, o, s, t)
  }

  predicate UnderWay(before: State, op: Op, o: Outcomes, s: State) {
    && s.cfg == before.cfg
    && s.life.Busy? && s.life.op == op
    && Tracks(before, op, o, s)
    && (before.core.closed <==> before.closeOnce)
  }

  /** A restart that got through its stop is a start from the stopped manager. */
  lemma StartPart(before: State, op: Op, o: Outcomes)
    requires MayStart(before.core, op, o.reaped)
    ensures Alone(before.cfg, before.core, op, o.reaped, o.world) ==
            StartAlone(before.cfg, Base(before.core, op), o.world).0
    ensures ErrorAlone(before, op, o.reaped, o.world, o.logOk) == StartError(Base(before.core, op), o.world)
  {
    hide StartAlone;
  }

  lemma EnterGoes(before: State, op: Op, o: Outcomes, s: State)
    requires UnderWay(before, op, o, s) && s.life.at.Entered?
    ensures Goes(before, op, o, s, DoEnter(s).value)
  {
    hide StartAlone, Detach;
  }

  lemma ReserveGoes(before: State, op: Op, o: Outcomes, s: State)
    requires UnderWay(before, op, o, s) && s.life.at.StartEntry?
    ensures Goes(before, op, o, s, DoReserve(s).value)
  {
    StartPart(before, op, o);
    hide Alone, ErrorAlone;
  }

  /** A step within an attempt that leaves the manager alone. */
  predicate Stays(s: State, t: State) {
    && InAttempt(s.life) && InAttempt(t.life)
    && t.core == s.core && t.results == s.results
    && t.life.op == s.life.op && t.life.at.gen == s.life.at.gen
  }

  lemma AttemptGoes(before: State, op: Op, o: Outcomes, s: State, t: State)
    requires UnderWay(before, op, o, s) && Stays(s, t)
    ensures Goes(before, op, o, s, t)
  {
    hide Returns, Reserve, Base;
  }

  lemma NothingToPoison(before: State, op: Op, o: Outcomes, s: State, c: ClientId)
    requires UnderWay(before, op, o, s) && (s.life.at.Attempt? || s.life.at.Stopping?)
    ensures Poison(s.core, c) == s.core
  {
  }

  /** What the attempt offers to publish. */
  function Offer(s: State): StartWorld
    requires Connecting(s.life) && s.life.at.stage.handshake.Installing?
  {
    var g := s.life.at.stage;
    StartSucceeds(g.pid, g.client, g.handshake.caps)
  }

  lemma InstallGoes(before: State, op: Op, o: Outcomes, s: State)
    requires UnderWay(before, op, o, s) && Connecting(s.life) && s.life.at.stage.handshake.Installing?
    requires o.world == Offer(s)
    ensures Goes(before, op, o, s, DoInstall(s).value)
  {
    hide Returns;
  }

  lemma AnnouncedGoes(before: State, op: Op, o: Outcomes, s: State)
    requires UnderWay(before, op, o, s) && s.life.at.Announcing?
    ensures Goes(before, op, o, s, DoAnnounced(s).value)
  {
    StartPart(before, op, o);
    hide Alone, ErrorAlone;
  }

  lemma RollbackGoes(before: State, op: Op, o: Outcomes, s: State)
    requires UnderWay(before, op, o, s) && InAttempt(s.life) && s.life.at.stage.Rolling? && o.world.StartFails?
    ensures Goes(before, op, o, s, DoRollback(s).value)
  {
    StartPart(before, op, o);
    hide Alone, ErrorAlone;
  }

  lemma StopGoes(before: State, op: Op, o: Outcomes, s: State)
    requires UnderWay(before, op, o, s) && s.life.at.StopEntry?
    ensures Goes(before, op, o, s, DoStop(s).value)
  {
    hide StartAlone;
  }

  lemma ShutdownGoes(before: State, op: Op, o: Outcomes, s: State, a: CallOutcome)
    requires UnderWay(before, op, o, s) && s.life.at.Stopping? && s.life.at.work.ShutdownCall?
    ensures Goes(before, op, o, s, DoShutdownReply(s, a).value)
  {
    hide Returns;
    NothingToPoison(before, op, o, s, s.life.at.work.client);
  }

  lemma WaitGoes(before: State, op: Op, o: Outcomes, s: State, w: WaitOutcome)
    requires UnderWay(before, op, o, s) && s.life.at.Stopping? && s.life.at.work.Waiting? && o.reaped == w.Exits?
    ensures Goes(before, op, o, s, DoWait(s, w).value)
  {
    hide StartAlone;
  }

  lemma CleanupGoes(before: State, op: Op, o: Outcomes, s: State, u: State, after: After)
    requires UnderWay(before, op, o, s) && u.core == s.core && u.results == s.results && u.closeErr == s.closeErr
    requires after.AfterStop? ==>
      && Detached(before.core, op, s.core) && StopError(before.core, o.reaped).None?
      && (op.OpClose? ==> !before.closeOnce)
    requires after.AfterFailedStart? ==> Undone(before.cfg, before.core, op, o.reaped, o.world, s.core)
    requires after.AfterClose? ==> Closing(before, op, o, s) && s.core == CloseAlone(before.core)
    ensures Goes(before, op, o, s, CleanupReturns(u, op, after))
  {
    if after.AfterFailedStart? {
      StartPart(before, op, o);
      hide Alone, ErrorAlone;
    } else {
      hide StartAlone;
    }
  }

  lemma MarkGoes(before: State, op: Op, o: Outcomes, s: State)
    requires UnderWay(before, op, o, s) && s.life.at.CloseMarking?
    ensures Goes(before, op, o, s, DoMark(s).value)
  {
    hide Returns;
  }

  lemma CloseLogGoes(before: State, op: Op, o: Outcomes, s: State, ok: bool)
    requires UnderWay(before, op, o, s) && s.life.at.LogClosing? && o.logOk == ok
    ensures Goes(before, op, o, s, DoCloseLog(s, ok).value)
  {
    hide StartAlone, CloseAlone;
  }

  lemma CheckOwnerGoes(before: State, op: Op, o: Outcomes, s: State)
    requires UnderWay(before, op, o, s)
    requires s.life.at.FailedStart? || (s.life.at.Stopping? && s.life.at.work.CheckingOwner?)
    ensures Goes(before, op, o, s, DoCheckOwner(s).value)
  {
    var after := if s.life.at.FailedStart? then AfterFailedStart else AfterStop;
    assert DoCheckOwner(s) == Some(CheckOwnerOf(s, op, s.life.at.gen, after));
    hide Returns, CleanupReturns, DoCheckOwner, StartAlone, Detach, Reserve;
    CleanupGoes(before, op, o, s, Flag(s, true, CleanupSkipped), after);
  }

  lemma RemoveFilesGoes(before: State, op: Op, o: Outcomes, s: State, a: bool, b: bool)
    requires UnderWay(before, op, o, s) && s.life.at.Removing?
    ensures Goes(before, op, o, s, DoRemoveFiles(s, a, b).value)
  {
    var u := FilesRemoved(s, a, b);
    assert u.core == s.core && u.results == s.results && u.closeErr == s.closeErr;
    hide Goes, CleanupReturns, FilesRemoved;
    CleanupGoes(before, op, o, s, u, s.life.at.after);
  }

  // ----- the steps of an operation agree with its outcomes -----

  /** The outcomes are those that this step reports. */
  predicate Reports(s: State, e: Step, o: Outcomes) {
    && (e.WaitStep? ==> o.reaped == e.wait.Exits?)
    && (e.RollbackStep? ==> o.world.StartFails?)
    && (e.InstallStep? && Connecting(s.life) && s.life.at.stage.handshake.Installing? ==> o.world == Offer(s))
    && (e.CloseLog? ==> o.logOk == e.logOk)
  }

  lemma PreparingStays(s: State, e: Step)
    requires s.life.Busy? && (e.Begin? || e.RemoveStale? || e.MakeToken? || e.Launch?) && StartingNext(s, e).Some?
    ensures Stays(s, StartingNext(s, e).value)
  {
    hide DoEnter, DoReserve, Cleared;
  }

  lemma StartingGoes(before: State, op: Op, o: Outcomes, s: State, e: Step)
    requires UnderWay(before, op, o, s) && IsStartingStep(e) && StartingNext(s, e).Some?
    ensures Goes(before, op, o, s, StartingNext(s, e).value)
  {
    hide Goes, Tracks, DoBegin, DoEnter, DoReserve, DoRemoveStale, DoMakeToken, DoLaunch;
    if e.Enter? {
      EnterPlace(s);
      EnterGoes(before, op, o, s);
    } else if e.ReserveStep? {
      ReservePlace(s);
      ReserveGoes(before, op, o, s);
    } else {
      PreparingStays(s, e);
      AttemptGoes(before, op, o, s, StartingNext(s, e).value);
    }
  }

  lemma EnterPlace(s: State)
    requires DoEnter(s).Some?
    ensures s.life.Busy? && s.life.at.Entered?
  {
  }

  lemma ReservePlace(s: State)
    requires DoReserve(s).Some?
    ensures s.life.Busy? && s.life.at.StartEntry?
  {
  }

  lemma DialStays(s: State, e: Step)
    requires (e.Dial? || e.VerifyPeer?) && HandshakeNext(s, e).Some?
    ensures Stays(s, HandshakeNext(s, e).value)
  {
    hide DoAuthReply, DoCapsReply, DoHandshakeBroken, DoInstall;
  }

  lemma AuthReplyStays(s: State, removed: bool)
    requires DoAuthReply(s, removed).Some?
    ensures Stays(s, DoAuthReply(s, removed).value)
  {
    hide Cleared, FenceAccepts;
  }

  lemma CapsReplyStays(s: State, id: string, gen: nat, caps: seq<string>)
    requires DoCapsReply(s, id, gen, caps).Some?
    ensures Stays(s, DoCapsReply(s, id, gen, caps).value)
  {
    hide HandleGated, FenceAccepts;
  }

  lemma BrokenStays(s: State, poison: bool)
    requires DoHandshakeBroken(s, poison).Some? && forall c :: Poison(s.core, c) == s.core
    ensures Stays(s, DoHandshakeBroken(s, poison).value)
  {
    hide Poison;
  }

  lemma InstallPlace(s: State)
    requires DoInstall(s).Some?
    ensures Connecting(s.life) && s.life.at.stage.handshake.Installing?
  {
  }

  lemma AnnouncedPlace(s: State)
    requires DoAnnounced(s).Some?
    ensures s.life.Busy? && s.life.at.Announcing?
  {
  }

  lemma BrokenPlace(s: State, poison: bool)
    requires DoHandshakeBroken(s, poison).Some?
    ensures InAttempt(s.life)
  {
  }

  lemma HandshakeGoes(before: State, op: Op, o: Outcomes, s: State, e: Step)
    requires UnderWay(before, op, o, s) && IsHandshakeStep(e) && HandshakeNext(s, e).Some? && Reports(s, e, o)
    ensures Goes(before, op, o, s, HandshakeNext(s, e).value)
  {
    hide Goes, Tracks, Poison, Stays;
    hide DoDial, DoVerifyPeer, DoAuthReply, DoCapsReply, DoHandshakeBroken, DoInstall, DoAnnounced;
    var t := HandshakeNext(s, e).value;
    if e.InstallStep? {
      InstallPlace(s);
      InstallGoes(before, op, o, s);
    } else if e.Announced? {
      AnnouncedPlace(s);
      AnnouncedGoes(before, op, o, s);
    } else if e.HandshakeBroken? {
      BrokenPlace(s, e.poison);
      forall c ensures Poison(s.core, c) == s.core {
        NothingToPoison(before, op, o, s, c);
      }
      BrokenStays(s, e.poison);
      AttemptGoes(before, op, o, s, t);
    } else {
      if e.Dial? || e.VerifyPeer? {
        DialStays(s, e);
      } else if e.AuthReply? {
        AuthReplyStays(s, e.authRemoved);
      } else {
        CapsReplyStays(s, e.replyId, e.generation, e.caps);
      }
      AttemptGoes(before, op, o, s, t);
    }
  }

  lemma UndoingGoes(before: State, op: Op, o: Outcomes, s: State, e: Step)
    requires UnderWay(before, op, o, s) && IsUndoingStep(e) && UndoingNext(s, e).Some? && Reports(s, e, o)
    ensures Goes(before, op, o, s, UndoingNext(s, e).value)
  {
    hide Goes, Tracks, Poison, Detach, Rollback;
    match e
    case Reap(_) => AttemptGoes(before, op, o, s, UndoingNext(s, e).value);
    case RollbackStep => RollbackGoes(before, op, o, s);
    case StopStep => StopGoes(before, op, o, s);
    case ShutdownReply(a) => ShutdownGoes(before, op, o, s, a);
  }

  lemma StoppingGoes(before: State, op: Op, o: Outcomes, s: State, e: Step)
    requires UnderWay(before, op, o, s) && IsStoppingStep(e) && StoppingNext(s, e).Some? && Reports(s, e, o)
    ensures Goes(before, op, o, s, StoppingNext(s, e).value)
  {
    hide Goes, Tracks, StopReturns, CleanupReturns, FilesRemoved;
    match e
    case WaitStep(w) => WaitGoes(before, op, o, s, w);
    case CheckOwner => CheckOwnerGoes(before, op, o, s);
    case RemoveFiles(a, b) => RemoveFilesGoes(before, op, o, s, a, b);
    case MarkStep => MarkGoes(before, op, o, s);
    case CloseLog(ok) => CloseLogGoes(before, op, o, s, ok);
  }

  /** Processes and their servers do not touch the operation. */
  lemma PluginGoes(before: State, op: Op, o: Outcomes, s: State, e: Step)
    requires UnderWay(before, op, o, s) && IsPluginStep(e) && PluginNext(s, e).Some?
    ensures Goes(before, op, o, s, PluginNext(s, e).value)
  {
    PluginAside(s, e);
    hide Returns, PluginNext;
  }

  lemma PluginAside(s: State, e: Step)
    requires IsPluginStep(e) && PluginNext(s, e).Some?
    ensures
      var t := PluginNext(s, e).value;
      && t.life == s.life && t.core == s.core && t.results == s.results
      && t.closeOnce == s.closeOnce && t.closeErr == s.closeErr
  {
    hide HandleAuth, HandleGated;
  }

  lemma StepGoes(before: State, op: Op, o: Outcomes, s: State, e: Step)
    requires UnderWay(before, op, o, s) && Next(s, e).Some? && !IsCallingStep(e) && Reports(s, e, o)
    ensures Goes(before, op, o, s, Next(s, e).value) && Next(s, e).value.cfg == s.cfg
  {
    hide Goes, UnderWay, StartingNext, HandshakeNext, UndoingNext, StoppingNext, CallingNext, PluginNext;
    if IsStartingStep(e) {
      StartingGoes(before, op, o, s, e);
    } else if IsHandshakeStep(e) {
      HandshakeGoes(before, op, o, s, e);
    } else if IsUndoingStep(e) {
      UndoingGoes(before, op, o, s, e);
    } else if IsStoppingStep(e) {
      StoppingGoes(before, op, o, s, e);
    } else {
      PluginGoes(before, op, o, s, e);
    }
  }

  // ----- whole runs -----

  /** A run to the end of the operation that is under way, in which no call and no monitor takes a step. */
  ghost predicate Uninterrupted(s: State, es: seq<Step>)
    decreases |es|
  {
    && es != [] && !IsCallingStep(es[0]) && Next(s, es[0]).Some?
    && var t := Next(s, es[0]).value;
       if es[1..] == [] then t.life.Idle? else t.life.Busy? && Uninterrupted(t, es[1..])
  }

  function EndOf(s: State, es: seq<Step>): State
    requires Uninterrupted(s, es)
    decreases |es|
  {
    var t := Next(s, es[0]).value;
    if es[1..] == [] then t else EndOf(t, es[1..])
  }

  /** Every step of the run reports these outcomes. */
  ghost predicate AllReport(s: State, es: seq<Step>, o: Outcomes)
    requires Uninterrupted(s, es)
    decreases |es|
  {
    && Reports(s, es[0], o)
    && (es[1..] != [] ==> AllReport(Next(s, es[0]).value, es[1..], o))
  }

  lemma {:induction false} RestGoes(before: State, op: Op, o: Outcomes, s: State, es: seq<Step>)
    requires UnderWay(before, op, o, s) && Uninterrupted(s, es) && AllReport(s, es, o)
    ensures EndOf(s, es).life.Idle? && Returns(before, op, o, s, EndOf(s, es))
    decreases |es|
  {
    hide Next, Tracks, Reports, Alone, ErrorAlone;
    var t := Next(s, es[0]).value;
    StepGoes(before, op, o, s, es[0]);
    if es[1..] != [] {
      RestGoes(before, op, o, t, es[1..]);
    }
  }

  lemma IdleCloses(s: State)
    requires Reachable(s) && s.life.Idle?
    ensures s.core.closed <==> s.closeOnce
  {
    hide SuccessfulStarts, PluginsOk, MonitorOk, ProcessesOk, FilesOk, CallsOk, ClientsOk, HistoryOk, CoreOk, LifeOk;
    ReachableInv(s);
  }

  lemma BeginGoes(s: State, op: Op, o: Outcomes)
    requires Next(s, Begin(op)).Some? && (s.core.closed <==> s.closeOnce)
    ensures UnderWay(s, op, o, Next(s, Begin(op)).value) && Next(s, Begin(op)).value.results == s.results
  {
    hide HandshakeNext, UndoingNext, StoppingNext, CallingNext, PluginNext;
  }

  // ----- the outcomes of a run -----

  /** What one step says about the outcomes. */
  function Noted(s: State, e: Step, rest: Outcomes): Outcomes {
    match e
    case WaitStep(w) => rest.(reaped := w.Exits?)
    case CloseLog(ok) => rest.(logOk := ok)
    case RollbackStep => rest.(world := StartFails)
    case InstallStep =>
      if Connecting(s.life) && s.life.at.stage.handshake.Installing? then rest.(world := Offer(s)) else rest
    case _ => rest
  }

  /** The outcomes of a run: those of its wait, its attempt and its log file, if it has them. */
  ghost function OutcomesOf(s: State, es: seq<Step>): Outcomes
    requires Uninterrupted(s, es)
    decreases |es|
  {
    if es[1..] == [] then Noted(s, es[0], Outcomes(true, StartFails, true))
    else Noted(s, es[0], OutcomesOf(Next(s, es[0]).value, es[1..]))
  }

  lemma NotedIsReported(s: State, e: Step, rest: Outcomes)
    ensures Reports(s, e, Noted(s, e, rest))
  {
  }

  lemma NotedOnce(s: State, e: Step, t: State, rest: Outcomes)
    requires Advances(s, e, t) && t.life.Busy?
    ensures
      var o := Noted(s, e, rest);
      && o.logOk == rest.logOk
      && (Phase(t.life.at) <= 3 ==> o.reaped == rest.reaped) && (Phase(t.life.at) <= 7 ==> o.world == rest.world)
  {
    hide Phase, Offer;
  }

  /** How far an operation has come. */
  function Phase(at: Place): nat {
    match at
    case Entered => 0
    case StopEntry => 1
    case Stopping(_, work) => if work.ShutdownCall? then 2 else if work.Waiting? then 3 else 4
    case Removing(after) => if after.AfterStop? then 5 else 9
    case StartEntry => 6
    case CloseMarking => 6
    case Attempt(_, _) => 7
    case Announcing => 8
    case FailedStart(_) => 8
    case LogClosing => 10
  }

  /** An operation never goes back; it waits once, and comes to the end of an attempt once. */
  predicate Advances(s: State, e: Step, t: State) {
    && s.life.Busy?
    && (e.WaitStep? ==> Phase(s.life.at) == 3) && (e.InstallStep? || e.RollbackStep? ==> Phase(s.life.at) == 7)
    && (e.CloseLog? ==> t.life.Idle?)
    && (t.life.Busy? ==>
          && Phase(s.life.at) <= Phase(t.life.at)
          && (e.WaitStep? ==> Phase(t.life.at) > 3) && (e.InstallStep? || e.RollbackStep? ==> Phase(t.life.at) > 7))
  }

  lemma StartingAdvances(s: State, e: Step)
    requires s.life.Busy? && IsStartingStep(e) && StartingNext(s, e).Some?
    ensures Advances(s, e, StartingNext(s, e).value)
  {
    hide DoEnter, DoReserve, DoRemoveStale, DoMakeToken, DoLaunch;
    if e.Enter? {
      EnterAdvances(s);
    } else if e.ReserveStep? {
      ReserveAdvances(s);
    } else {
      PreparingStays(s, e);
    }
  }

  lemma EnterAdvances(s: State)
    requires DoEnter(s).Some?
    ensures Advances(s, Enter, DoEnter(s).value)
  {
  }

  lemma ReserveAdvances(s: State)
    requires DoReserve(s).Some?
    ensures Advances(s, ReserveStep, DoReserve(s).value)
  {
    hide Reserve;
  }

  lemma HandshakeAdvances(s: State, e: Step)
    requires IsHandshakeStep(e) && HandshakeNext(s, e).Some?
    ensures Advances(s, e, HandshakeNext(s, e).value)
  {
    hide DoDial, DoVerifyPeer, DoAuthReply, DoCapsReply, Install, Poison;
    if e.Dial? || e.VerifyPeer? {
      DialStays(s, e);
    } else if e.AuthReply? {
      AuthReplyStays(s, e.authRemoved);
    } else if e.CapsReply? {
      CapsReplyStays(s, e.replyId, e.generation, e.caps);
    }
  }

  lemma UndoingAdvances(s: State, e: Step)
    requires Inv(s) && IsUndoingStep(e) && UndoingNext(s, e).Some?
    ensures Advances(s, e, UndoingNext(s, e).value)
  {
    ClosedHasNoCmd(s);
    hide Inv, DoStop, Rollback, Poison, FenceAccepts;
    if e.StopStep? {
      StopAdvances(s);
    }
  }

  lemma StopAdvances(s: State)
    requires DoStop(s).Some? && (s.life.Busy? ==> PlaceOk(s.core, s.life.op, s.life.at))
    ensures Advances(s, StopStep, DoStop(s).value)
  {
    hide Detach;
  }

  lemma WaitAdvances(s: State, w: WaitOutcome)
    requires DoWait(s, w).Some? && (s.life.Busy? ==> PlaceOk(s.core, s.life.op, s.life.at))
    ensures Advances(s, WaitStep(w), DoWait(s, w).value)
  {
  }

  lemma CleanupAdvances(s: State, e: Step, u: State, op: Op, after: After)
    requires s.life.Busy? && (after.AfterStop? ==> !op.OpStart?)
    requires Phase(s.life.at) <= if after.AfterStop? then 5 else 9
    requires e.CheckOwner? || e.RemoveFiles?
    ensures Advances(s, e, CleanupReturns(u, op, after))
  {
  }

  lemma CheckOwnerAdvances(s: State)
    requires s.life.Busy? && PlaceOk(s.core, s.life.op, s.life.at)
    requires s.life.at.FailedStart? || (s.life.at.Stopping? && s.life.at.work.CheckingOwner?)
    ensures Advances(s, CheckOwner, DoCheckOwner(s).value)
  {
    var after := if s.life.at.FailedStart? then AfterFailedStart else AfterStop;
    assert DoCheckOwner(s) == Some(CheckOwnerOf(s, s.life.op, s.life.at.gen, after));
    hide CleanupOwns, CleanupReturns, DoCheckOwner;
    CleanupAdvances(s, CheckOwner, Flag(s, true, CleanupSkipped), s.life.op, after);
  }

  lemma RemoveFilesAdvances(s: State, a: bool, b: bool)
    requires DoRemoveFiles(s, a, b).Some? && (s.life.Busy? ==> PlaceOk(s.core, s.life.op, s.life.at))
    ensures Advances(s, RemoveFiles(a, b), DoRemoveFiles(s, a, b).value)
  {
    hide FilesRemoved, CleanupReturns;
    CleanupAdvances(s, RemoveFiles(a, b), FilesRemoved(s, a, b), s.life.op, s.life.at.after);
  }

  lemma StoppingAdvances(s: State, e: Step)
    requires Inv(s) && IsStoppingStep(e) && StoppingNext(s, e).Some?
    ensures Advances(s, e, StoppingNext(s, e).value)
  {
    ClosedHasNoCmd(s);
    hide Inv, DoWait, CheckOwnerOf, DoRemoveFiles;
    if e.WaitStep? {
      WaitAdvances(s, e.wait);
    } else if e.CheckOwner? {
      CheckOwnerAdvances(s);
    } else if e.RemoveFiles? {
      RemoveFilesAdvances(s, e.socketRemoved, e.authRemoved);
    }
  }

  lemma StepAdvances(s: State, e: Step)
    requires Inv(s) && s.life.Busy? && Next(s, e).Some? && !IsCallingStep(e)
    ensures Advances(s, e, Next(s, e).value)
  {
    hide Inv, Advances, StartingNext, HandshakeNext, UndoingNext, StoppingNext, CallingNext, PluginNext;
    if IsStartingStep(e) {
      StartingAdvances(s, e);
    } else if IsHandshakeStep(e) {
      HandshakeAdvances(s, e);
    } else if IsUndoingStep(e) {
      UndoingAdvances(s, e);
    } else if IsStoppingStep(e) {
      StoppingAdvances(s, e);
    } else {
      PluginAside(s, e);
      AsideAdvances(s, e, Next(s, e).value);
    }
  }

  lemma AsideAdvances(s: State, e: Step, t: State)
    requires s.life.Busy? && IsPluginStep(e) && t.life == s.life
    ensures Advances(s, e, t)
  {
  }

  /** Once past its wait, an operation reports nothing about waiting; and so for its attempt. */
  lemma {:induction false} ReportsOnce(s: State, es: seq<Step>, o: Outcomes, p: Outcomes)
    requires Inv(s) && s.life.Busy? && Uninterrupted(s, es) && AllReport(s, es, o)
    requires p.logOk == o.logOk
    requires Phase(s.life.at) <= 3 ==> p.reaped == o.reaped
    requires Phase(s.life.at) <= 7 ==> p.world == o.world
    ensures AllReport(s, es, p)
    decreases |es|
  {
    StepAdvances(s, es[0]);
    hide Inv, Next, Offer, Phase;
    if es[1..] != [] {
      NextKeeps(s, es[0]);
      ReportsOnce(Next(s, es[0]).value, es[1..], o, p);
    }
  }

  /** The outcomes of a run are what each of its steps reports. */
  lemma {:induction false} OutcomesReported(s: State, es: seq<Step>)
    requires Inv(s) && s.life.Busy? && Uninterrupted(s, es)
    ensures AllReport(s, es, OutcomesOf(s, es))
    decreases |es|
  {
    hide Inv, Next, Noted, Reports, Advances, Phase;
    if es[1..] == [] {
      NotedIsReported(s, es[0], Outcomes(true, StartFails, true));
    } else {
      var t := Next(s, es[0]).value;
      var rest := OutcomesOf(t, es[1..]);
      StepAdvances(s, es[0]);
      NextKeeps(s, es[0]);
      OutcomesReported(t, es[1..]);
      NotedIsReported(s, es[0], rest);
      NotedOnce(s, es[0], t, rest);
      ReportsOnce(t, es[1..], rest, Noted(s, es[0], rest));
    }
  }

  /**
   The whole operations used for the host are the operations of the step machine. A Start, Kill, Restart or Close that
   runs from its beginning to its end while calls and monitor keep still, and whatever plugins and strangers do, leaves
   exactly the manager that `StartAlone`, `KillAlone`, `RestartAlone` and `CloseAlone` give for the outcomes of its
   steps, and returns exactly the error that these outcomes call for.
   */
  lemma UninterruptedOperation(s: State, op: Op, es: seq<Step>)
    requires Reachable(s) && s.life.Idle?
    requires Uninterrupted(s, [Begin(op)] + es) && es != []
    ensures Returns(s, op, OutcomesOf(s, [Begin(op)] + es), s, EndOf(s, [Begin(op)] + es))
  {
    IdleCloses(s);
    ReachableInv(s);
    var t := Next(s, Begin(op)).value;
    assert ([Begin(op)] + es)[1..] == es;
    NextKeeps(s, Begin(op));
    var o := OutcomesOf(t, es);
    BeginGoes(s, op, o);
    hide Inv, Next, Tracks, Alone, ErrorAlone, Reports;
    OutcomesReported(t, es);
    RestGoes(s, op, o, t, es);
  }

  // ----- the sections that change the manager, field by field -----

  /** A start that is let in claims the next number and clears what the last generation left. */
  lemma ReservationExactly(s: State)
    requires Next(s, ReserveStep).Some? && !s.core.closed && s.core.cmd.None? && s.core.client.None?
    ensures
      var t, gen := Next(s, ReserveStep).value, s.core.state.generation + 1;
      && t.core == Core(PluginState(s.cfg.pluginId, gen, false, [], s.cfg.socketPath, 0),
                        None, None, s.core.rpcEpoch, false)
      && t.life == Busy(s.life.op, Attempt(gen, Reserved))
  {
    hide HandshakeNext, UndoingNext, StoppingNext, CallingNext, PluginNext;
  }

  /** What lies around from earlier is removed before a token is made. */
  lemma StaleFilesGo(s: State, socketGone: bool, authGone: bool)
    requires Next(s, RemoveStale(socketGone, authGone)).Some?
    ensures
      var t := Next(s, RemoveStale(socketGone, authGone)).value;
      && t.core == s.core
      && t.socketFile == (s.socketFile && !socketGone)
      && t.authFile == if authGone then None else s.authFile
  {
    hide HandshakeNext, UndoingNext, StoppingNext, CallingNext, PluginNext;
  }

  /** The generation is published whole: healthy, attached, with its capabilities, under the epoch as it is. */
  lemma PublicationExactly(s: State)
    requires Next(s, InstallStep).Some?
    ensures Connecting(s.life) && s.life.at.stage.handshake.Installing?
    ensures
      var t, g, gen := Next(s, InstallStep).value, s.life.at.stage, s.life.at.gen;
      && t.core == Core(PluginState(s.cfg.pluginId, gen, true, g.handshake.caps, s.cfg.socketPath, g.pid),
                        Some(g.pid), Some(g.client), s.core.rpcEpoch, s.core.closed)
      && t.published == s.published + [Publication(gen, s.core.rpcEpoch, g.client, g.pid, g.token, g.handshake.caps)]
      && t.results == s.results
  {
    hide StartingNext, UndoingNext, StoppingNext, CallingNext, PluginNext;
  }

  /** A stop takes everything away at once, keeps the capabilities, and asks the client to shut down if there is one. */
  lemma DetachmentExactly(s: State)
    requires Next(s, StopStep).Some? && !s.core.closed
    ensures
      var t, m := Next(s, StopStep).value, s.core;
      && t.core == Core(PluginState(m.state.pluginId, m.state.generation, false, m.state.capabilities,
                                    m.state.socketPath, 0),
                        None, None, m.rpcEpoch + 1, s.life.op.OpClose?)
      && t.life == Busy(s.life.op, Stopping(m.state.generation,
                                            if m.client.Some? then ShutdownCall(m.client.value, m.cmd)
                                            else if m.cmd.Some? then Waiting(m.cmd.value) else CheckingOwner))
  {
    hide StartingNext, HandshakeNext, StoppingNext, CallingNext, PluginNext;
  }

  /** Whatever the answer, the shutdown call is followed by the wait for the process; only a broken one poisons. */
  lemma ShutdownLeadsToWait(s: State, answer: CallOutcome)
    requires Reachable(s) && Next(s, ShutdownReply(answer)).Some?
    ensures s.life.Busy? && s.life.at.Stopping? && s.life.at.work.ShutdownCall?
    ensures
      var t, w := Next(s, ShutdownReply(answer)).value, s.life.at.work;
      && t.core == s.core
      && t.poisoned == (if answer.Broken? then s.poisoned + {w.client} else s.poisoned)
      && t.life == Busy(s.life.op, Stopping(s.life.at.gen,
                                            if w.proc.Some? then Waiting(w.proc.value) else CheckingOwner))
  {
    hide StartingNext, HandshakeNext, StoppingNext, CallingNext, PluginNext;
    ReachableInv(s);
    ShutdownPlace(s, answer);
    ShutdownFacts(s);
    hide Inv;
  }

  lemma ShutdownPlace(s: State, answer: CallOutcome)
    requires DoShutdownReply(s, answer).Some?
    ensures s.life.Busy? && s.life.at.Stopping? && s.life.at.work.ShutdownCall?
  {
  }
}
