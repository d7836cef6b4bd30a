/**
 The monitor loop: it restarts the plugin after every poll that failed and after no other, and stops only when it is
 told to or the manager is closed.
 */
module SupervisorMonitor {
  import opened Options
  import opened ManagerCore
  import opened PluginServer
  import opened Supervisor
  import opened SupervisorInvariant
  import opened SupervisorTheorems
  import opened SupervisorCalls

  // ----- after the close -----

  function Polls(es: seq<Step>): nat {
    if es == [] then 0 else (if es[0].MonitorPoll? then 1 else 0) + Polls(es[1..])
  }

  /** How often the monitor can still poll once the close is announced. */
  function PollsLeft(s: State): nat {
    match s.monitor
    case Exited => 0
    case Deciding => 0
    case Polling(id) =>
      if id in s.calls && s.calls[id].phase.Done? && !s.calls[id].phase.verdict.Accepted? then 0 else 1
    case _ => 1
  }

  lemma PollStep(s: State, e: Step)
    requires Inv(s) && s.closedCh && s.core.closed && Next(s, e).Some?
    ensures PollsLeft(Next(s, e).value) + (if e.MonitorPoll? then 1 else 0) <= PollsLeft(s)
  {
    hide Inv, StartingNext, HandshakeNext, UndoingNext, StoppingNext, CallingNext, PluginNext;
    if IsCallingStep(e) {
      PollCalling(s, e);
    } else {
      MonitorFacts(s);
      MonitorWaits(s, e);
    }
  }

  lemma PollCalling(s: State, e: Step)
    requires s.closedCh && s.core.closed && IsCallingStep(e) && CallingNext(s, e).Some?
    ensures PollsLeft(CallingNext(s, e).value) + (if e.MonitorPoll? then 1 else 0) <= PollsLeft(s)
  {
    CallsRefusedCalling(s, e);
    if e.Capture? || e.CallReturns? || e.PoisonStep? || e.CommitStep? {
      SameMonitor(s, e);
      hide CallingNext;
    } else {
      hide CallsRefused;
    }
  }

  lemma SameMonitor(s: State, e: Step)
    requires (e.Capture? || e.CallReturns? || e.PoisonStep? || e.CommitStep?) && CallingNext(s, e).Some?
    ensures CallingNext(s, e).value.monitor == s.monitor
  {
  }

  lemma MonitorFacts(s: State)
    requires Inv(s)
    ensures s.life.Busy? && s.life.op == OpRestart(true) ==> s.monitor.Restarting?
  {
  }

  /**
   A step of the lifecycle or of a process ends no operation, and at most begins a restart of the monitor's; or it
   ends the operation that holds the lock, and lets the monitor go on if that was its restart.
   */
  predicate MonitorMoves(s: State, t: State) {
    if t.results == s.results then
      t.monitor == s.monitor || (s.monitor.RestartQueued? && t.monitor.Restarting?)
    else
      && s.life.Busy? && |t.results| == |s.results| + 1 && t.results[..|s.results|] == s.results
      && t.results[|s.results|].op == s.life.op
      && t.monitor == if s.life.op == OpRestart(true) then Ticking else s.monitor
  }

  lemma PreparingMoves(s: State, e: Step)
    requires (e.RemoveStale? || e.MakeToken? || e.Launch?) && StartingNext(s, e).Some?
    ensures StartingNext(s, e).value.monitor == s.monitor && StartingNext(s, e).value.results == s.results
  {
    hide DoBegin, DoEnter, DoReserve, Cleared;
  }

  lemma EnterMoves(s: State)
    requires DoEnter(s).Some?
    ensures MonitorMoves(s, DoEnter(s).value)
  {
  }

  lemma ReserveMoves(s: State)
    requires DoReserve(s).Some?
    ensures MonitorMoves(s, DoReserve(s).value)
  {
    hide Reserve;
  }

  lemma StartingMoves(s: State, e: Step)
    requires IsStartingStep(e) && StartingNext(s, e).Some?
    ensures MonitorMoves(s, StartingNext(s, e).value)
  {
    hide DoEnter, DoReserve, DoRemoveStale, DoMakeToken, DoLaunch;
    if e.RemoveStale? || e.MakeToken? || e.Launch? {
      PreparingMoves(s, e);
    } else if e.Enter? {
      EnterMoves(s);
    } else if e.ReserveStep? {
      ReserveMoves(s);
    }
  }

  lemma DialMoves(s: State, e: Step)
    requires (e.Dial? || e.VerifyPeer?) && HandshakeNext(s, e).Some?
    ensures HandshakeNext(s, e).value.monitor == s.monitor && HandshakeNext(s, e).value.results == s.results
  {
    hide DoAuthReply, DoCapsReply, DoHandshakeBroken, DoInstall;
  }

  lemma ReplyMoves(s: State, e: Step)
    requires (e.AuthReply? || e.CapsReply?) && HandshakeNext(s, e).Some?
    ensures HandshakeNext(s, e).value.monitor == s.monitor && HandshakeNext(s, e).value.results == s.results
  {
    hide DoDial, DoVerifyPeer, DoHandshakeBroken, DoInstall, Cleared, HandleGated, FenceAccepts;
  }

  lemma HandshakeMoves(s: State, e: Step)
    requires IsHandshakeStep(e) && HandshakeNext(s, e).Some?
    ensures MonitorMoves(s, HandshakeNext(s, e).value)
  {
    hide Install, Poison, DoDial, DoVerifyPeer, DoAuthReply, DoCapsReply;
    if e.Dial? || e.VerifyPeer? {
      DialMoves(s, e);
    } else if e.AuthReply? || e.CapsReply? {
      ReplyMoves(s, e);
    }
  }

  lemma StopMoves(s: State)
    requires DoStop(s).Some?
    ensures MonitorMoves(s, DoStop(s).value)
  {
    hide Detach, WorkAfterDetach;
  }

  lemma RollbackMoves(s: State)
    requires DoRollback(s).Some?
    ensures MonitorMoves(s, DoRollback(s).value)
  {
    hide Rollback;
  }

  lemma UndoingMoves(s: State, e: Step)
    requires IsUndoingStep(e) && UndoingNext(s, e).Some?
    ensures MonitorMoves(s, UndoingNext(s, e).value)
  {
    hide DoStop, DoRollback, Poison, FenceAccepts;
    if e.StopStep? {
      StopMoves(s);
    } else if e.RollbackStep? {
      RollbackMoves(s);
    }
  }

  lemma CleanupReturnsMoves(s: State, op: Op, after: After)
    requires s.life.Busy? && s.life.op == op
    ensures MonitorMoves(s, CleanupReturns(s, op, after))
  {
  }

  lemma RemoveFilesMoves(s: State, a: bool, b: bool)
    requires DoRemoveFiles(s, a, b).Some?
    ensures MonitorMoves(s, DoRemoveFiles(s, a, b).value)
  {
    var t := FilesRemoved(s, a, b);
    assert t.life == s.life && t.monitor == s.monitor && t.results == s.results;
    hide FilesRemoved, CleanupReturns;
    CleanupReturnsMoves(t, s.life.op, s.life.at.after);
  }

  lemma CheckOwnerMoves(s: State)
    requires s.life.Busy? && (s.life.at.FailedStart? || (s.life.at.Stopping? && s.life.at.work.CheckingOwner?))
    ensures MonitorMoves(s, DoCheckOwner(s).value)
  {
    var after := if s.life.at.FailedStart? then AfterFailedStart else AfterStop;
    assert DoCheckOwner(s) == Some(CheckOwnerOf(s, s.life.op, s.life.at.gen, after));
    hide CleanupOwns, CleanupReturns, DoCheckOwner;
    CleanupReturnsMoves(Flag(s, true, CleanupSkipped), s.life.op, after);
  }

  lemma WaitMoves(s: State, w: WaitOutcome)
    requires DoWait(s, w).Some?
    ensures MonitorMoves(s, DoWait(s, w).value)
  {
  }

  lemma StoppingMoves(s: State, e: Step)
    requires IsStoppingStep(e) && StoppingNext(s, e).Some?
    ensures MonitorMoves(s, StoppingNext(s, e).value)
  {
    hide DoWait, CheckOwnerOf, DoRemoveFiles;
    match e
    case WaitStep(w) => WaitMoves(s, w);
    case CheckOwner => CheckOwnerMoves(s);
    case RemoveFiles(a, b) => RemoveFilesMoves(s, a, b);
    case MarkStep =>
    case CloseLog(_) =>
  }

  /** The lifecycle moves the monitor only into, and out of, a restart of its own. */
  lemma MonitorWaits(s: State, e: Step)
    requires Next(s, e).Some? && !IsCallingStep(e)
    ensures MonitorMoves(s, Next(s, e).value)
  {
    hide StartingNext, HandshakeNext, UndoingNext, StoppingNext, CallingNext;
    if IsStartingStep(e) {
      StartingMoves(s, e);
    } else if IsHandshakeStep(e) {
      HandshakeMoves(s, e);
    } else if IsUndoingStep(e) {
      UndoingMoves(s, e);
    } else if IsStoppingStep(e) {
      StoppingMoves(s, e);
    }
  }

  lemma {:induction false} PollsAfterClose(s: State, es: seq<Step>)
    requires Inv(s) && s.closedCh && s.core.closed && RunFrom(s, es).Some?
    ensures Polls(es) + PollsLeft(RunFrom(s, es).value) <= PollsLeft(s)
    decreases |es|
  {
    hide Inv, Next, PollsLeft;
    if es != [] {
      var t := Next(s, es[0]).value;
      NextKeeps(s, es[0]);
      PollStep(s, es[0]);
      ClosedStays(s, [es[0]]);
      assert RunFrom(s, [es[0]]) == Some(t);
      PollsAfterClose(t, es[1..]);
    }
  }

  /** After the close is announced the monitor polls at most once more, however long the run goes on. */
  lemma MonitorPollsOnceMore(s: State, es: seq<Step>)
    requires Reachable(s) && s.closedCh && RunFrom(s, es).Some?
    ensures Polls(es) <= PollsLeft(s) <= 1
  {
    ReachableInv(s);
    hide Next, RunFrom;
    PollsAfterClose(s, es);
  }

  /** After the close is announced the monitor begins at most one more restart and never queues another. */
  lemma MonitorWindsDown(s: State)
    requires Reachable(s) && s.closedCh
    ensures s.core.closed
    ensures s.restartsAfterClose <= 1
    ensures s.restartsAfterClose == 1 ==> !s.monitor.RestartQueued?
    ensures s.monitor.Deciding? ==> Next(s, MonitorDecide).value.monitor == Exited
  {
    hide StartingNext, HandshakeNext, UndoingNext, StoppingNext, PluginNext;
    hide SuccessfulStarts, PluginsOk, ProcessesOk, FilesOk, CallsOk, ClientsOk, HistoryOk;
    ReachableInv(s);
  }

  // ----- polls and restarts -----

  /** How many restarts of the monitor's have returned. */
  function Restarts(results: seq<Returned>): nat {
    if results == [] then 0
    else Restarts(results[..|results| - 1]) + if results[|results| - 1].op == OpRestart(true) then 1 else 0
  }

  ghost predicate Accepts(s: State, id: nat) {
    id in s.calls && s.calls[id].phase == Done(Accepted)
  }

  ghost predicate Refuses(s: State, id: nat) {
    id in s.calls && s.calls[id].phase.Done? && !s.calls[id].phase.verdict.Accepted?
  }

  /** How far the loop has come since it began the poll `id`, when `before` restarts had returned. */
  ghost predicate Cycle(before: nat, id: nat, s: State) {
    var now := Restarts(s.results);
    match s.monitor
    case Polling(call) => call == id && id in s.calls && now == before
    case Deciding => Refuses(s, id) && now == before
    case RestartQueued => Refuses(s, id) && now == before
    case Restarting => Refuses(s, id) && now == before
    case Ticking => (Accepts(s, id) && now == before) || (Refuses(s, id) && now == before + 1)
    case Exited => (Accepts(s, id) && now == before) || (Refuses(s, id) && before <= now <= before + 1)
  }

  lemma RestartsStep(s: State, t: State)
    requires MonitorMoves(s, t)
    requires s.life.Busy? && s.life.op == OpRestart(true) <==> s.monitor.Restarting?
    ensures
      || (Restarts(t.results) == Restarts(s.results)
          && (t.monitor == s.monitor || (s.monitor.RestartQueued? && t.monitor.Restarting?)))
      || (Restarts(t.results) == Restarts(s.results) + 1 && s.monitor.Restarting? && t.monitor.Ticking?)
  {
  }

  lemma MonitorHoldsLock(s: State)
    requires Inv(s)
    ensures s.life.Busy? && s.life.op == OpRestart(true) <==> s.monitor.Restarting?
  {
    hide SuccessfulStarts, PluginsOk, ProcessesOk, FilesOk, CallsOk, ClientsOk, HistoryOk, CoreOk, LifeOk, CloseOk;
  }

  lemma SameEnds(s: State, e: Step, id: nat)
    requires Next(s, e).Some?
    ensures Accepts(s, id) ==> Accepts(Next(s, e).value, id)
    ensures Refuses(s, id) ==> Refuses(Next(s, e).value, id)
  {
    hide Next;
    if id in s.calls && s.calls[id].phase.Done? {
      DoneIsFinal(s, e, id);
    }
  }

  lemma CycleCalling(before: nat, id: nat, s: State, e: Step)
    requires Cycle(before, id, s) && IsCallingStep(e) && !e.MonitorPoll? && CallingNext(s, e).Some?
    requires
      var t := CallingNext(s, e).value;
      (Accepts(s, id) ==> Accepts(t, id)) && (Refuses(s, id) ==> Refuses(t, id)) && (id in s.calls ==> id in t.calls)
    ensures Cycle(before, id, CallingNext(s, e).value)
  {
    if e.Capture? || e.CallReturns? || e.PoisonStep? || e.CommitStep? {
      SameMonitor(s, e);
      SameResults(s, e);
      hide CallingNext, Accepts, Refuses;
    }
  }

  lemma SameResults(s: State, e: Step)
    requires (e.Capture? || e.CallReturns? || e.PoisonStep? || e.CommitStep?) && CallingNext(s, e).Some?
    ensures CallingNext(s, e).value.results == s.results
  {
    hide FenceAccepts, HeartbeatCurrent, CommitHeartbeat, Poison, NewCall;
  }

  lemma CycleOther(before: nat, id: nat, s: State, t: State)
    requires Cycle(before, id, s) && t.calls == s.calls && MonitorMoves(s, t)
    requires s.life.Busy? && s.life.op == OpRestart(true) <==> s.monitor.Restarting?
    ensures Cycle(before, id, t)
  {
    RestartsStep(s, t);
    hide MonitorMoves, Restarts;
  }

  lemma CycleStep(before: nat, id: nat, s: State, e: Step)
    requires Inv(s) && Cycle(before, id, s) && Next(s, e).Some? && !e.MonitorPoll?
    ensures Cycle(before, id, Next(s, e).value)
  {
    SameEnds(s, e, id);
    FollowsCalls(s, e);
    hide Inv, Next, CallingNext, Cycle, MonitorMoves, Accepts, Refuses;
    if IsCallingStep(e) {
      CallingIsNext(s, e);
      CycleCalling(before, id, s, e);
    } else {
      MonitorHoldsLock(s);
      MonitorWaits(s, e);
      OthersKeepCalls(s, e);
      CycleOther(before, id, s, Next(s, e).value);
    }
  }

  lemma FollowsCalls(s: State, e: Step)
    requires Next(s, e).Some?
    ensures forall id :: id in s.calls ==> id in Next(s, e).value.calls
  {
    hide StartingNext, HandshakeNext, UndoingNext, StoppingNext, CallingNext, PluginNext;
  }

  lemma {:induction false} CycleRun(before: nat, id: nat, s: State, es: seq<Step>)
    requires Inv(s) && Cycle(before, id, s) && RunFrom(s, es).Some? && Polls(es) == 0
    ensures Cycle(before, id, RunFrom(s, es).value)
    decreases |es|
  {
    hide Inv, Next, Cycle;
    if es != [] {
      NextKeeps(s, es[0]);
      CycleStep(before, id, s, es[0]);
      CycleRun(before, id, Next(s, es[0]).value, es[1..]);
    }
  }

  /**
   From one poll to the next: when the monitor is ready to poll again, its last poll is done, and exactly one restart
   of its own has returned since if that poll was not accepted, and none if it was.
   */
  lemma MonitorRestartsExactly(s: State, id: nat, es: seq<Step>)
    requires Reachable(s) && Next(s, MonitorPoll(id)).Some? && Polls(es) == 0
    requires RunFrom(s, [MonitorPoll(id)] + es).Some?
    ensures
      var t := RunFrom(s, [MonitorPoll(id)] + es).value;
      t.monitor.Ticking? ==>
        && id in t.calls && t.calls[id].phase.Done?
        && Restarts(t.results) == Restarts(s.results) + if t.calls[id].phase.verdict.Accepted? then 0 else 1
  {
    var polled, run := Next(s, MonitorPoll(id)).value, [MonitorPoll(id)] + es;
    assert run[1..] == es;
    ReachableInv(s);
    NextKeeps(s, MonitorPoll(id));
    PollBegins(s, id);
    hide Inv, Next;
    CycleRun(Restarts(s.results), id, polled, es);
  }

  lemma PollBegins(s: State, id: nat)
    requires Next(s, MonitorPoll(id)).Some?
    ensures Cycle(Restarts(s.results), id, Next(s, MonitorPoll(id)).value)
  {
    hide StartingNext, HandshakeNext, UndoingNext, StoppingNext, PluginNext;
  }

  /** The monitor is never stuck on its own account: a queued restart begins as soon as the lock is free. */
  lemma MonitorGoesOn(s: State)
    ensures s.monitor.Ticking? ==> forall id :: id !in s.calls ==> Next(s, MonitorPoll(id)).Some?
    ensures s.monitor.RestartQueued? && s.life.Idle? ==> Next(s, Begin(OpRestart(true))).Some?
    ensures s.monitor.Deciding? ==>
      Next(s, MonitorDecide) == Some(s.(monitor := if s.closedCh then Exited else RestartQueued))
  {
    hide HandshakeNext, UndoingNext, StoppingNext, PluginNext;
  }

  // ----- why the monitor ends -----

  lemma ExitCalling(s: State, e: Step)
    requires IsCallingStep(e) && CallingNext(s, e).Some?
    requires !s.monitor.Exited? && CallingNext(s, e).value.monitor.Exited?
    ensures e == MonitorCancel || s.closedCh
  {
    hide FenceAccepts, HeartbeatCurrent, CommitHeartbeat, Poison, NewCall;
  }

  lemma ExitStep(s: State, e: Step)
    requires Next(s, e).Some? && !s.monitor.Exited? && Next(s, e).value.monitor.Exited?
    ensures e == MonitorCancel || s.closedCh
  {
    hide StartingNext, HandshakeNext, UndoingNext, StoppingNext, CallingNext, PluginNext;
    if IsCallingStep(e) {
      ExitCalling(s, e);
    } else {
      MonitorWaits(s, e);
    }
  }

  lemma {:induction false} AnnouncedForGood(s: State, es: seq<Step>)
    requires s.closedCh && RunFrom(s, es).Some?
    ensures RunFrom(s, es).value.closedCh
    decreases |es|
  {
    hide StartingNext, HandshakeNext, UndoingNext, StoppingNext, CallingNext, PluginNext;
    if es != [] {
      AnnouncedForGood(Next(s, es[0]).value, es[1..]);
    }
  }

  /** The monitor ends only because it was cancelled or because the close was announced. */
  lemma {:induction false} MonitorEndsOnlyIf(s: State, es: seq<Step>)
    requires RunFrom(s, es).Some? && !s.monitor.Exited?
    ensures
      var t := RunFrom(s, es).value;
      t.monitor.Exited? ==> t.closedCh || MonitorCancel in es
    decreases |es|
  {
    hide Next;
    if es != [] {
      var t := Next(s, es[0]).value;
      if t.monitor.Exited? {
        ExitStep(s, es[0]);
        if s.closedCh {
          AnnouncedForGood(s, es);
        }
      } else {
        MonitorEndsOnlyIf(t, es[1..]);
      }
    }
  }
}
