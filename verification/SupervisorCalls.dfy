/**
 What becomes of a call: what it captures, what its reply is worth, and that a broken connection is never used again.
 */
module SupervisorCalls {
  import opened Options
  import opened ManagerCore
  import opened PluginServer
  import opened Supervisor
  import opened SupervisorInvariant
  import opened SupervisorTheorems

  /** Only this call differs. */
  ghost predicate OnlyCall(s: State, t: State, id: nat) {
    && id in t.calls
    && t == s.(calls := s.calls[id := t.calls[id]])
  }

  /** A new call captures what is installed now, and fails at once if that is nothing or the manager is closed. */
  lemma CaptureExactly(s: State, id: nat, kind: Kind)
    requires id !in s.calls
    ensures Next(s, Capture(id, kind)).Some?
    ensures
      var t, m := Next(s, Capture(id, kind)).value, s.core;
      && OnlyCall(s, t, id)
      && t.calls[id].kind == kind && t.calls[id].client == m.client
      && t.calls[id].generation == m.state.generation && t.calls[id].epoch == m.rpcEpoch
      && t.calls[id].phase == if !m.closed && m.client.Some? then Awaiting else Done(Failed)
  {
    hide StartingNext, HandshakeNext, UndoingNext, StoppingNext, PluginNext;
  }

  /**
   What a reply is worth. It is believed exactly if the client that was asked is still installed, or if it is the
   first generation's, captured under epoch 0, and that generation is still current. A believed heartbeat goes on to
   write the health it heard; any other believed call is done. A refusal by the plugin ends the call and nothing else.
   */
  lemma ReplyJudgedExactly(s: State, id: nat, reply: CallOutcome)
    requires Reachable(s) && Next(s, CallReturns(id, reply)).Some?
    ensures
      var t, c := Next(s, CallReturns(id, reply)).value, s.calls[id];
      var believed := s.core.client == c.client || (c.epoch == 0 && s.core.state.generation == 1);
      && OnlyCall(s, t, id)
      && t.calls[id] == c.(phase := t.calls[id].phase)
      && (reply.AppError? ==> t.calls[id].phase == Done(Failed))
      && (reply.Reply? && !believed ==> t.calls[id].phase == Done(Stale))
      && (reply.Reply? && believed ==>
            t.calls[id].phase == if c.kind.Heartbeat? then Committing(reply.healthy) else Done(Accepted))
  {
    hide StartingNext, HandshakeNext, UndoingNext, StoppingNext, PluginNext, FenceAccepts;
    ReplyFenceExactly(s, id);
  }

  // ----- broken connections -----

  /** The call has met a broken connection: it will poison its client, or has done so and failed. */
  ghost predicate Broke(s: State, id: nat, c: ClientId) {
    && id in s.calls && s.calls[id].client == Some(c)
    && (s.calls[id].phase.Poisoning? || (s.calls[id].phase == Done(Failed) && c in s.poisoned))
  }

  lemma ReturnKeepsBroke(s: State, other: nat, reply: CallOutcome, id: nat, c: ClientId)
    requires Broke(s, id, c) && DoCallReturns(s, other, reply).Some?
    ensures Broke(DoCallReturns(s, other, reply).value, id, c)
  {
    hide FenceAccepts;
  }

  lemma PoisonKeepsBroke(s: State, other: nat, id: nat, c: ClientId)
    requires Broke(s, id, c) && DoPoison(s, other).Some?
    ensures Broke(DoPoison(s, other).value, id, c)
  {
    hide Poison;
  }

  lemma CommitKeepsBroke(s: State, other: nat, id: nat, c: ClientId)
    requires Broke(s, id, c) && DoCommit(s, other).Some?
    ensures Broke(DoCommit(s, other).value, id, c)
  {
    hide HeartbeatCurrent, CommitHeartbeat;
  }

  lemma NewKeepsBroke(s: State, e: Step, id: nat, c: ClientId)
    requires Broke(s, id, c) && (e.Capture? || e.MonitorPoll?) && CallingNext(s, e).Some?
    ensures Broke(CallingNext(s, e).value, id, c)
  {
    hide DoCallReturns, DoPoison, DoCommit, DoMonitorObserve, DoMonitorDecide, NewCall;
  }

  lemma MonitorKeepsBroke(s: State, e: Step, id: nat, c: ClientId)
    requires Broke(s, id, c) && (e.MonitorObserve? || e.MonitorDecide? || e.MonitorCancel?) && CallingNext(s, e).Some?
    ensures Broke(CallingNext(s, e).value, id, c)
  {
    hide DoCapture, DoCallReturns, DoPoison, DoCommit, DoMonitorPoll;
  }

  lemma BreaksCalling(s: State, e: Step, id: nat, c: ClientId)
    requires Broke(s, id, c) && IsCallingStep(e) && CallingNext(s, e).Some?
    ensures Broke(CallingNext(s, e).value, id, c)
  {
    hide Broke;
    hide DoCapture, DoCallReturns, DoPoison, DoCommit, DoMonitorPoll, DoMonitorObserve, DoMonitorDecide;
    if e.CallReturns? {
      ReturnKeepsBroke(s, e.id, e.reply, id, c);
    } else if e.PoisonStep? {
      PoisonKeepsBroke(s, e.id, id, c);
    } else if e.CommitStep? {
      CommitKeepsBroke(s, e.id, id, c);
    } else if e.Capture? || e.MonitorPoll? {
      NewKeepsBroke(s, e, id, c);
    } else {
      MonitorKeepsBroke(s, e, id, c);
    }
  }

  lemma CallingIsNext(s: State, e: Step)
    requires IsCallingStep(e)
    ensures Next(s, e) == CallingNext(s, e)
  {
    hide StartingNext, HandshakeNext, UndoingNext, StoppingNext, CallingNext, PluginNext;
  }

  lemma PluginIsNext(s: State, e: Step)
    requires IsPluginStep(e)
    ensures Next(s, e) == PluginNext(s, e)
  {
    hide StartingNext, HandshakeNext, UndoingNext, StoppingNext, CallingNext, PluginNext;
  }

  /** Lifecycle and processes leave the calls alone. */
  lemma OthersKeepCalls(s: State, e: Step)
    requires !IsCallingStep(e) && Next(s, e).Some?
    ensures Next(s, e).value.calls == s.calls && s.poisoned <= Next(s, e).value.poisoned
  {
    hide StartingNext, HandshakeNext, UndoingNext, StoppingNext, CallingNext, PluginNext;
  }

  lemma BreaksStep(s: State, e: Step, id: nat, c: ClientId)
    requires Broke(s, id, c) && Next(s, e).Some?
    ensures Broke(Next(s, e).value, id, c)
  {
    hide Next, CallingNext;
    if IsCallingStep(e) {
      CallingIsNext(s, e);
      BreaksCalling(s, e, id, c);
    } else {
      OthersKeepCalls(s, e);
    }
  }

  lemma {:induction false} BrokeStays(s: State, es: seq<Step>, id: nat, c: ClientId)
    requires Broke(s, id, c) && RunFrom(s, es).Some?
    ensures Broke(RunFrom(s, es).value, id, c)
    decreases |es|
  {
    hide Broke, Next;
    if es != [] {
      BreaksStep(s, es[0], id, c);
      BrokeStays(Next(s, es[0]).value, es[1..], id, c);
    }
  }

  /**
   A timeout or a transport error poisons the connection. In every continuation the call can go on only by poisoning
   its client; once it is done, the client is poisoned, it is not installed, and the call has failed.
   */
  lemma BrokenCallPoisons(s: State, id: nat, es: seq<Step>)
    requires Reachable(s) && Next(s, CallReturns(id, Broken)).Some?
    requires RunFrom(s, [CallReturns(id, Broken)] + es).Some?
    ensures
      var t, c := RunFrom(s, [CallReturns(id, Broken)] + es).value, s.calls[id].client;
      && c.Some? && id in t.calls && t.calls[id].client == c
      && (if t.calls[id].phase.Done? then
            t.calls[id].phase == Done(Failed) && c.value in t.poisoned && t.core.client != c
          else Next(t, PoisonStep(id)).Some?)
  {
    var broken := Next(s, CallReturns(id, Broken)).value;
    var run := [CallReturns(id, Broken)] + es;
    assert run[1..] == es;
    ReachableInv(s);
    NextKeeps(s, CallReturns(id, Broken));
    BreaksNow(s, id);
    hide Inv, Next;
    var c := s.calls[id].client.value;
    BrokeStays(broken, es, id, c);
    RunKeeps(broken, es);
    var t := RunFrom(broken, es).value;
    InstalledIsClean(t);
    if !t.calls[id].phase.Done? {
      PoisonGoes(t, id);
    }
  }

  lemma BreaksNow(s: State, id: nat)
    requires Next(s, CallReturns(id, Broken)).Some?
    ensures id in s.calls && s.calls[id].client.Some?
    ensures Broke(Next(s, CallReturns(id, Broken)).value, id, s.calls[id].client.value)
  {
    hide StartingNext, HandshakeNext, UndoingNext, StoppingNext, PluginNext;
  }

  lemma PoisonGoes(s: State, id: nat)
    requires id in s.calls && s.calls[id].phase.Poisoning? && s.calls[id].client.Some?
    ensures Next(s, PoisonStep(id)).Some?
    ensures
      var t, c := Next(s, PoisonStep(id)).value, s.calls[id].client;
      && c.value in t.poisoned && t.core.client != c
      && (s.core.client == c ==> !t.core.state.healthy)
      && (s.core.client != c ==> t.core == s.core)
  {
    hide StartingNext, HandshakeNext, UndoingNext, StoppingNext, PluginNext;
  }

  // ----- the end of a call is final -----

  ghost predicate SameCall(s: State, t: State, id: nat) {
    id in s.calls && id in t.calls && t.calls[id] == s.calls[id]
  }

  lemma ReturnLeavesDone(s: State, other: nat, reply: CallOutcome, id: nat)
    requires id in s.calls && s.calls[id].phase.Done? && DoCallReturns(s, other, reply).Some?
    ensures SameCall(s, DoCallReturns(s, other, reply).value, id)
  {
    hide FenceAccepts;
  }

  lemma PoisonLeavesDone(s: State, other: nat, id: nat)
    requires id in s.calls && s.calls[id].phase.Done? && DoPoison(s, other).Some?
    ensures SameCall(s, DoPoison(s, other).value, id)
  {
    hide Poison;
  }

  lemma CommitLeavesDone(s: State, other: nat, id: nat)
    requires id in s.calls && s.calls[id].phase.Done? && DoCommit(s, other).Some?
    ensures SameCall(s, DoCommit(s, other).value, id)
  {
    hide HeartbeatCurrent, CommitHeartbeat;
  }

  lemma NewLeavesDone(s: State, e: Step, id: nat)
    requires id in s.calls && (e.Capture? || e.MonitorPoll?) && CallingNext(s, e).Some?
    ensures SameCall(s, CallingNext(s, e).value, id)
  {
    hide DoCallReturns, DoPoison, DoCommit, DoMonitorObserve, DoMonitorDecide, NewCall;
  }

  lemma MonitorLeavesCalls(s: State, e: Step, id: nat)
    requires id in s.calls && (e.MonitorObserve? || e.MonitorDecide? || e.MonitorCancel?) && CallingNext(s, e).Some?
    ensures SameCall(s, CallingNext(s, e).value, id)
  {
    hide DoCapture, DoCallReturns, DoPoison, DoCommit, DoMonitorPoll;
  }

  lemma DoneCalling(s: State, e: Step, id: nat)
    requires id in s.calls && s.calls[id].phase.Done? && IsCallingStep(e) && CallingNext(s, e).Some?
    ensures SameCall(s, CallingNext(s, e).value, id)
  {
    hide SameCall;
    hide DoCapture, DoCallReturns, DoPoison, DoCommit, DoMonitorPoll, DoMonitorObserve, DoMonitorDecide;
    if e.CallReturns? {
      ReturnLeavesDone(s, e.id, e.reply, id);
    } else if e.PoisonStep? {
      PoisonLeavesDone(s, e.id, id);
    } else if e.CommitStep? {
      CommitLeavesDone(s, e.id, id);
    } else if e.Capture? || e.MonitorPoll? {
      NewLeavesDone(s, e, id);
    } else {
      MonitorLeavesCalls(s, e, id);
    }
  }

  lemma DoneIsFinal(s: State, e: Step, id: nat)
    requires id in s.calls && s.calls[id].phase.Done? && Next(s, e).Some?
    ensures SameCall(s, Next(s, e).value, id)
  {
    hide Next, CallingNext;
    if IsCallingStep(e) {
      CallingIsNext(s, e);
      DoneCalling(s, e, id);
    } else {
      OthersKeepCalls(s, e);
    }
  }
}
