/**
 What the invariant means: safety of every run of the supervisor, whatever the interleaving.
 */
module SupervisorTheorems {
  import opened Options
  import opened ManagerCore
  import opened PluginServer
  import opened Supervisor
  import opened SupervisorInvariant

  // ----- stale answers -----

  /** The four-way test of a heartbeat says exactly "my client is still installed". */
  lemma HeartbeatFenceIsIdentity(s: State, id: nat)
    requires Reachable(s) && id in s.calls && s.calls[id].client.Some?
    ensures
      var c := s.calls[id];
      HeartbeatCurrent(s.core, c.client.value, c.generation, c.epoch) <==> s.core.client == c.client
  {
    hide SuccessfulStarts, PluginsOk, ProcessesOk, CloseOk, MonitorOk, FilesOk;
    ReachableInv(s);
    assert CapturedOk(s.calls[id], s.published);
  }

  /**
   A heartbeat that comes to its last section is believed if and only if its client is still installed.
   Then it writes `healthy` and nothing else; otherwise it ends as stale and writes nothing.
   */
  lemma HeartbeatCommitsExactly(s: State, id: nat)
    requires Reachable(s) && Next(s, CommitStep(id)).Some?
    ensures
      var t := Next(s, CommitStep(id)).value;
      var current := s.core.client == s.calls[id].client;
      && t.calls[id].phase == Done(if current then Accepted else Stale)
      && t.core == (if current then s.core.(state := s.core.state.(healthy := s.calls[id].phase.healthy)) else s.core)
  {
    hide StartingNext, HandshakeNext, UndoingNext, StoppingNext, PluginNext;
    HeartbeatFenceIsIdentity(s, id);
  }

  /**
   When is an answer accepted? From the installed client always. From a detached client exactly if it was
   captured under epoch 0 and the first generation is still current.
   */
  lemma ReplyFenceExactly(s: State, id: nat)
    requires Reachable(s) && id in s.calls && s.calls[id].client.Some?
    ensures
      var c := s.calls[id];
      FenceAccepts(s.core, c.client.value, c.generation, c.epoch) <==>
      s.core.client == c.client || (c.epoch == 0 && s.core.state.generation == 1)
    ensures s.calls[id].epoch == 0 ==> s.calls[id].generation == 1
  {
    ReachableInv(s);
    var c := s.calls[id];
    assert CapturedOk(c, s.published);
    assert c.generation > 1 ==> s.published[0].epoch < s.published[c.generation - 1].epoch;
  }

  /** Once a second generation was published, only the installed client is believed. */
  lemma SecondGenerationClosesTheGap(s: State, id: nat)
    requires Reachable(s) && id in s.calls && s.calls[id].client.Some?
    requires |s.published| >= 2
    ensures
      var c := s.calls[id];
      FenceAccepts(s.core, c.client.value, c.generation, c.epoch) <==> s.core.client == c.client
  {
    ReplyFenceExactly(s, id);
    ReachableInv(s);
  }

  /**
   Branches that exist in the program and that no run enters: an internal call found stale, a cleanup that
   does not own its files, a rollback whose generation is gone, a removal while a client or process is
   attached, and a Close that finds the manager open after its stop.
   */
  lemma DeadBranches(s: State)
    requires Reachable(s)
    ensures s.hit == {}
  {
    ReachableInv(s);
  }

  // ----- poisoned connections -----

  /** The client is poisoned, not installed, and held only by calls that were in flight already. */
  ghost predicate Barred(c: ClientId, t: State, earlier: set<nat>) {
    && c in t.poisoned
    && t.core.client != Some(c)
    && earlier <= t.calls.Keys
    && (forall id :: id in t.calls && id !in earlier ==> t.calls[id].client != Some(c))
  }

  lemma InstalledIsClean(s: State)
    requires Inv(s)
    ensures s.core.client.Some? ==> s.core.client.value !in s.poisoned
  {
  }

  lemma BarredStays(c: ClientId, s: State, t: State, earlier: set<nat>)
    requires Barred(c, s, earlier) && Follows(s, t)
    requires t.core.client.Some? ==> t.core.client.value !in t.poisoned
    ensures Barred(c, t, earlier)
  {
  }

  lemma {:induction false} BarredForever(c: ClientId, s: State, es: seq<Step>, earlier: set<nat>)
    requires Inv(s) && RunFrom(s, es).Some? && Barred(c, s, earlier)
    ensures Barred(c, RunFrom(s, es).value, earlier)
    decreases |es|
  {
    if es != [] {
      var t := Next(s, es[0]).value;
      NextKeeps(s, es[0]);
      InstalledIsClean(t);
      BarredStays(c, s, t, earlier);
      BarredForever(c, t, es[1..], earlier);
    }
  }

  /** A poisoned client is never installed again and never captured by a later call. */
  lemma PoisonedForever(s: State, es: seq<Step>, c: ClientId)
    requires Reachable(s) && RunFrom(s, es).Some? && c in s.poisoned
    ensures
      var t := RunFrom(s, es).value;
      && c in t.poisoned
      && t.core.client != Some(c)
      && (forall id :: id in t.calls && id !in s.calls ==> t.calls[id].client != Some(c))
  {
    ReachableInv(s);
    InstalledIsClean(s);
    BarredForever(c, s, es, s.calls.Keys);
  }

  /** A call of another generation never detaches the client that is installed now. */
  lemma OldPoisonIsHarmless(s: State, id: nat)
    requires Reachable(s) && Next(s, PoisonStep(id)).Some?
    requires s.calls[id].generation != s.core.state.generation
    ensures Next(s, PoisonStep(id)).value.core == s.core
  {
    hide StartingNext, HandshakeNext, UndoingNext, StoppingNext, PluginNext;
    HeartbeatFenceIsIdentity(s, id);
  }

  // ----- generations -----

  /**
   Published generations are 1, 2, 3, ... without a gap; their count is that of the successful starts, with the one
   that is about to return; and the current number is that count, and one more exactly while an attempt is under way.
   */
  lemma GenerationsHaveNoGaps(s: State)
    requires Reachable(s)
    ensures forall i :: 0 <= i < |s.published| ==> s.published[i].generation == i + 1
    ensures |s.published| == SuccessfulStarts(s.results) + if InAnnouncement(s.life) then 1 else 0
    ensures s.core.state.generation == |s.published| + if InAttempt(s.life) then 1 else 0
    ensures InAttempt(s.life) ==> s.life.at.gen == s.core.state.generation
  {
    ReachableInv(s);
  }

  /** A failed start leaves the manager as a stopped manager of the previous generation. */
  lemma FailedStartRestores(s: State)
    requires Reachable(s) && Next(s, RollbackStep).Some?
    ensures
      var t := Next(s, RollbackStep).value;
      && t.core == s.core.(state := PluginState(s.cfg.pluginId, |s.published|, false, [], "", 0))
      && t.published == s.published
  {
    hide StartingNext, HandshakeNext, StoppingNext, CallingNext, PluginNext;
    hide Inv, DoRollback;
    ReachableInv(s);
    RollbackShape(s);
  }

  lemma RollbackShape(s: State)
    requires Inv(s) && DoRollback(s).Some?
    ensures DoRollback(s).value.core == s.core.(state := PluginState(s.cfg.pluginId, |s.published|, false, [], "", 0))
    ensures DoRollback(s).value.published == s.published
  {
    hide SuccessfulStarts, PluginsOk, CloseOk, MonitorOk, ProcessesOk, CallsOk, ClientsOk, HistoryOk, FilesOk;
  }

  // ----- authentication -----

  /** Of every server ever booted: one token at most, its own, and nothing reaches the plugin before it. */
  lemma ServersAreDisciplined(s: State, p: Pid)
    requires Reachable(s) && p in s.plugins
    ensures Disciplined(s.plugins[p].server)
  {
    ReachableInv(s);
    assert PluginOk(s.plugins[p]);
  }

  /**
   A published generation was authenticated by the supervisor itself: of all Auth requests its server ever
   saw, exactly one was accepted, and that one was the supervisor's, with the token of that attempt.
   */
  lemma PublishedWasAuthenticated(s: State, i: nat)
    requires Reachable(s) && i < |s.published|
    ensures s.published[i].pid in s.plugins
    ensures
      var log := s.plugins[s.published[i].pid].server.log;
      exists k :: && 0 <= k < |log|
                  && log[k] == AuthAccepted(Kernel, s.published[i].token)
                  && (forall j :: 0 <= j < |log| && log[j].AuthAccepted? ==> j == k)
  {
    ReachableInv(s);
    var g := s.plugins[s.published[i].pid];
    assert KernelWon(g, s.published[i].token) && PluginOk(g);
    var k :| 0 <= k < |g.server.log| && g.server.log[k] == AuthAccepted(Kernel, s.published[i].token);
  }

  // ----- the manager's snapshot -----

  /** What a reader of the manager's state may rely on at any moment. */
  lemma SnapshotIsConsistent(s: State)
    requires Reachable(s)
    ensures
      var m := s.core;
      && (m.state.healthy ==>
            m.client.Some? && m.cmd.Some? && m.state.pid != 0 && m.state.socketPath != "" && !m.closed)
      && (m.state.pid != 0 <==> m.cmd.Some?)
      && (m.cmd.Some? ==> m.state.pid == m.cmd.value)
      && (m.client.Some? ==> m.cmd.Some?)
      && (m.state.capabilities != [] ==>
            && 1 <= m.state.generation <= |s.published|
            && s.published[m.state.generation - 1].caps == m.state.capabilities
            && m.state.pluginId == s.cfg.pluginId)
  {
    hide SuccessfulStarts, PluginsOk, CloseOk, MonitorOk, ProcessesOk, CallsOk, ClientsOk, FilesOk;
    ReachableInv(s);
  }

  /** Metadata is shown only if it describes the plugin and generation of the state, and then always. */
  lemma ProjectionExactly(
    state: PluginState, fixed: Option<BundleMetadata>, refresh: Option<map<int, BundleMetadata>>)
    ensures
      var md := ProjectMetadata(fixed, refresh, state);
      var key := Int64(state.generation);
      && (md.Some? ==> Describes(md.value, state))
      && (md.None? <==>
            && (fixed.Some? ==> !Describes(fixed.value, state))
            && (refresh.Some? && key in refresh.value ==> !Describes(refresh.value[key], state)))
      && (refresh.Some? && key in refresh.value && Describes(refresh.value[key], state) ==>
            md == Some(refresh.value[key]))
      && (md.Some? ==> md == fixed || (refresh.Some? && key in refresh.value && md == Some(refresh.value[key])))
  {
  }

  /**
   Shown metadata belongs to the current generation of this very plugin, up to the conversion of the number to
   63 bits and a sign. Before the first start the state has no plugin id, and neither has what is shown.
   */
  lemma ProjectedMetadataIsCurrent(
    s: State, fixed: Option<BundleMetadata>, refresh: Option<map<int, BundleMetadata>>)
    requires Reachable(s)
    ensures
      var md := ProjectMetadata(fixed, refresh, s.core.state);
      var current := |s.published| + (if InAttempt(s.life) then 1 else 0);
      md.Some? ==>
        && md.value.generation == Int64(current)
        && (current < 0x8000_0000_0000_0000 ==> md.value.generation == current)
        && md.value.pluginId == (if s.core.state == ZERO_STATE then "" else s.cfg.pluginId)
  {
    hide ProjectMetadata, SuccessfulStarts, PluginsOk, CloseOk, MonitorOk, ProcessesOk, FilesOk;
    ProjectionExactly(s.core.state, fixed, refresh);
    ReachableInv(s);
  }

  // ----- closing -----

  /** What a closed manager looks like: no client, no process, and only a Close gets past the entrance. */
  predicate ClosedShape(s: State) {
    && s.core.closed && s.core.cmd.None? && s.core.client.None?
    && !InAttempt(s.life)
    && (s.life.Busy? ==> !s.life.at.FailedStart? && !s.life.at.Announcing?)
    && (s.life.Busy? && !s.life.op.OpClose? ==> AtEntrance(s.life.at) && (s.life.at.StopEntry? ==> s.life.op.OpKill?))
  }

  lemma ClosedHasShape(s: State)
    requires Inv(s) && s.core.closed
    ensures ClosedShape(s)
  {
    hide SuccessfulStarts;
  }

  /** Nothing changes in the manager, and whatever operation ends now ends with an error, unless it is Close. */
  predicate OnlyRefuses(s: State, t: State) {
    && t.core == s.core
    && t.published == s.published
    && s.results <= t.results
    && (forall i :: |s.results| <= i < |t.results| ==> t.results[i].op.OpClose? || t.results[i].err.Some?)
  }

  lemma UntouchedRefuses(s: State, t: State)
    requires Untouched(s, t)
    ensures OnlyRefuses(s, t)
  {
  }

  lemma ErrorRefuses(s: State, t: State, r: Returned)
    requires t.core == s.core && t.published == s.published && t.results == s.results + [r]
    requires r.op.OpClose? || r.err.Some?
    ensures OnlyRefuses(s, t)
  {
  }

  lemma ClosedEnter(s: State)
    requires ClosedShape(s) && s.life.Busy? && s.life.at.Entered?
    ensures OnlyRefuses(s, DoEnter(s).value)
  {
    hide OnlyRefuses;
    var op := s.life.op;
    match op
    case OpStart => UntouchedRefuses(s, MoveTo(s, op, StartEntry));
    case OpRestart(_) => ErrorRefuses(s, Return(s, op, Some(Closed)), Returned(op, Some(Closed)));
    case OpKill => UntouchedRefuses(s, MoveTo(s, op, StopEntry));
    case OpClose =>
      if s.closeOnce {
        ErrorRefuses(s, Return(s, op, s.closeErr), Returned(op, s.closeErr));
      } else {
        UntouchedRefuses(s, MoveTo(s, op, StopEntry));
      }
  }

  lemma ClosedReserve(s: State)
    requires ClosedShape(s) && DoReserve(s).Some?
    ensures OnlyRefuses(s, DoReserve(s).value)
  {
  }

  lemma ClosedStop(s: State)
    requires ClosedShape(s) && DoStop(s).Some?
    ensures OnlyRefuses(s, DoStop(s).value)
  {
  }

  lemma ClosedShutdownReply(s: State, a: CallOutcome)
    requires ClosedShape(s) && DoShutdownReply(s, a).Some?
    ensures OnlyRefuses(s, DoShutdownReply(s, a).value)
  {
  }

  lemma ClosedWait(s: State, w: WaitOutcome)
    requires ClosedShape(s) && DoWait(s, w).Some?
    ensures OnlyRefuses(s, DoWait(s, w).value)
  {
  }

  lemma ClosedCheckOwner(s: State)
    requires ClosedShape(s) && s.life.Busy? && s.life.op.OpClose?
    requires s.life.at.Stopping? && s.life.at.work.CheckingOwner?
    ensures OnlyRefuses(s, DoCheckOwner(s).value)
  {
    hide DoCheckOwner;
    CheckOwnerShape(s);
    if s.life.at.gen != 0 && !CleanupOwns(s.core, s.life.at.gen) {
    } else {
    }
  }

  lemma CheckOwnerShape(s: State)
    requires s.life.Busy? && s.life.at.Stopping? && s.life.at.work.CheckingOwner?
    ensures DoCheckOwner(s) == Some(CheckOwnerOf(s, s.life.op, s.life.at.gen, AfterStop))
  {
    hide CheckOwnerOf;
  }

  lemma ClosedRemoveFiles(s: State, a: bool, b: bool)
    requires ClosedShape(s) && s.life.Busy? && s.life.at.Removing?
    ensures OnlyRefuses(s, DoRemoveFiles(s, a, b).value)
  {
    hide OnlyRefuses;
    var t := DoRemoveFiles(s, a, b).value;
    if s.life.at.after.AfterFailedStart? {
      ErrorRefuses(s, t, Returned(OpClose, Some(StartFailed)));
    } else {
      UntouchedRefuses(s, t);
    }
  }

  lemma ClosedMark(s: State)
    requires ClosedShape(s) && DoMark(s).Some?
    ensures OnlyRefuses(s, DoMark(s).value)
  {
  }

  lemma ClosedCloseLog(s: State, ok: bool)
    requires ClosedShape(s) && DoCloseLog(s, ok).Some?
    ensures OnlyRefuses(s, DoCloseLog(s, ok).value)
  {
  }

  lemma ClosedPoison(s: State, id: nat)
    requires ClosedShape(s) && DoPoison(s, id).Some?
    ensures OnlyRefuses(s, DoPoison(s, id).value)
  {
  }

  lemma ClosedCommit(s: State, id: nat)
    requires ClosedShape(s) && DoCommit(s, id).Some?
    ensures OnlyRefuses(s, DoCommit(s, id).value)
  {
  }

  /** Steps that only a start attempt takes. */
  predicate NeedsAttempt(e: Step) {
    || e.RemoveStale? || e.MakeToken? || e.Launch? || e.Dial? || e.VerifyPeer? || e.AuthReply? || e.CapsReply?
    || e.HandshakeBroken? || e.InstallStep? || e.Announced? || e.Reap? || e.RollbackStep?
  }

  lemma AttemptStepNeedsAttempt(s: State, e: Step)
    requires Next(s, e).Some?
    ensures NeedsAttempt(e) ==> InAttempt(s.life) || InAnnouncement(s.life)
  {
  }

  lemma ClosedBegin(s: State, op: Op)
    requires DoBegin(s, op).Some?
    ensures OnlyRefuses(s, DoBegin(s, op).value)
  {
    hide OnlyRefuses;
    if op == OpRestart(true) {
      UntouchedRefuses(s, DoBegin(s, op).value);
    } else {
      UntouchedRefuses(s, s.(life := Busy(op, Entered)));
    }
  }

  lemma ClosedEntranceStep(s: State, e: Step)
    requires ClosedShape(s) && Next(s, e).Some? && (e.Begin? || e.Enter? || e.ReserveStep?)
    ensures OnlyRefuses(s, Next(s, e).value)
  {
    hide OnlyRefuses, HandshakeNext, UndoingNext, StoppingNext, CallingNext, PluginNext;
    match e
    case Begin(op) => ClosedBegin(s, op);
    case Enter => ClosedEnter(s);
    case ReserveStep => ClosedReserve(s);
  }

  lemma ClosedStopStep(s: State)
    requires ClosedShape(s) && Next(s, StopStep).Some?
    ensures OnlyRefuses(s, Next(s, StopStep).value)
  {
    hide OnlyRefuses;
    hide StartingNext, HandshakeNext, StoppingNext, CallingNext, PluginNext;
    ClosedStop(s);
  }

  lemma ClosedTailStep(s: State, e: Step)
    requires ClosedShape(s) && Next(s, e).Some? && (e.ShutdownReply? || IsStoppingStep(e))
    ensures OnlyRefuses(s, Next(s, e).value)
  {
    hide OnlyRefuses;
    hide StartingNext, HandshakeNext, CallingNext, PluginNext;
    match e
    case ShutdownReply(a) => ClosedShutdownReply(s, a);
    case WaitStep(w) => ClosedWait(s, w);
    case CheckOwner => ClosedCheckOwner(s);
    case RemoveFiles(a, b) => ClosedRemoveFiles(s, a, b);
    case MarkStep => ClosedMark(s);
    case CloseLog(ok) => ClosedCloseLog(s, ok);
  }

  lemma ClosedCallStep(s: State, e: Step)
    requires ClosedShape(s) && Next(s, e).Some? && IsCallingStep(e)
    ensures OnlyRefuses(s, Next(s, e).value)
  {
    hide StartingNext, HandshakeNext, UndoingNext, StoppingNext, PluginNext;
    match e
    case Capture(_, _) =>
    case CallReturns(_, _) =>
    case PoisonStep(id) => ClosedPoison(s, id);
    case CommitStep(id) => ClosedCommit(s, id);
    case MonitorPoll(_) =>
    case MonitorObserve =>
    case MonitorDecide =>
    case MonitorCancel =>
  }

  lemma ClosedPluginStep(s: State, e: Step)
    requires Next(s, e).Some? && IsPluginStep(e)
    ensures OnlyRefuses(s, Next(s, e).value)
  {
    hide StartingNext, HandshakeNext, UndoingNext, StoppingNext, CallingNext;
    match e
    case BootPlugin(_) =>
    case ExitPlugin(_, _) =>
    case StrangerAuth(_, _, _) =>
    case KernelAuthServed(_, _, _, _) =>
    case GatedServed(_) =>
  }

  lemma ClosedStep(s: State, e: Step)
    requires ClosedShape(s) && Next(s, e).Some? && !NeedsAttempt(e)
    ensures OnlyRefuses(s, Next(s, e).value)
  {
    hide OnlyRefuses, Next;
    if e.Begin? || e.Enter? || e.ReserveStep? {
      ClosedEntranceStep(s, e);
    } else if e.StopStep? {
      ClosedStopStep(s);
    } else if e.ShutdownReply? || IsStoppingStep(e) {
      ClosedTailStep(s, e);
    } else if IsCallingStep(e) {
      ClosedCallStep(s, e);
    } else {
      ClosedPluginStep(s, e);
    }
  }

  lemma {:induction false} ClosedStays(s: State, es: seq<Step>)
    requires Inv(s) && s.core.closed && RunFrom(s, es).Some?
    ensures OnlyRefuses(s, RunFrom(s, es).value)
    decreases |es|
  {
    hide Inv;
    if es != [] {
      var e, t := es[0], Next(s, es[0]).value;
      NextKeeps(s, e);
      ClosedHasShape(s);
      AttemptStepNeedsAttempt(s, e);
      ClosedStep(s, e);
      ClosedStays(t, es[1..]);
    }
  }

  /**
   What a closed manager does to calls: one begun now fails, one that is done stays as it is, and no heartbeat
   is accepted any more.
   */
  ghost predicate CallsRefused(s: State, t: State) {
    && (forall id :: id in s.calls ==> id in t.calls && t.calls[id].kind == s.calls[id].kind)
    && (forall id :: id in t.calls && id !in s.calls ==> t.calls[id].phase == Done(Failed))
    && (forall id :: id in s.calls && s.calls[id].phase.Done? ==> t.calls[id].phase == s.calls[id].phase)
    && (forall id :: id in s.calls && s.calls[id].kind.Heartbeat? && t.calls[id].phase == Done(Accepted) ==>
          s.calls[id].phase == Done(Accepted))
  }

  lemma CallsUntouched(s: State, t: State)
    requires t.calls == s.calls
    ensures CallsRefused(s, t)
  {
  }

  lemma NewCallRefused(s: State, id: nat, kind: Kind)
    requires s.core.closed && id !in s.calls
    ensures CallsRefused(s, s.(calls := s.calls[id := NewCall(s.core, kind)]))
  {
  }

  lemma PhaseRefused(s: State, t: State, id: nat, phase: Phase)
    requires id in s.calls && !s.calls[id].phase.Done? && t.calls == SetPhase(s, id, phase).calls
    requires phase == Done(Accepted) ==> !s.calls[id].kind.Heartbeat?
    ensures CallsRefused(s, t)
  {
  }

  lemma ReplyRefused(s: State, id: nat, reply: CallOutcome)
    requires s.core.closed && DoCallReturns(s, id, reply).Some?
    ensures CallsRefused(s, DoCallReturns(s, id, reply).value)
  {
    hide CallsRefused, FenceAccepts;
    var t := DoCallReturns(s, id, reply).value;
    PhaseRefused(s, t, id, t.calls[id].phase);
  }

  lemma PoisonRefused(s: State, id: nat)
    requires s.core.closed && DoPoison(s, id).Some?
    ensures CallsRefused(s, DoPoison(s, id).value)
  {
    hide CallsRefused;
    PhaseRefused(s, DoPoison(s, id).value, id, Done(Failed));
  }

  lemma CommitRefused(s: State, id: nat)
    requires s.core.closed && DoCommit(s, id).Some?
    ensures CallsRefused(s, DoCommit(s, id).value)
  {
    hide CallsRefused;
    PhaseRefused(s, DoCommit(s, id).value, id, Done(Stale));
  }

  lemma PollRefused(s: State, id: nat)
    requires s.core.closed && DoMonitorPoll(s, id).Some?
    ensures CallsRefused(s, DoMonitorPoll(s, id).value)
  {
    hide CallsRefused;
    var t := DoMonitorPoll(s, id).value;
    NewCallRefused(s, id, Heartbeat);
    PolledRefused(s, t, s.(calls := t.calls));
  }

  lemma CallsRefusedCalling(s: State, e: Step)
    requires s.core.closed && IsCallingStep(e) && CallingNext(s, e).Some?
    ensures CallsRefused(s, CallingNext(s, e).value)
  {
    hide CallsRefused, DoCallReturns, DoPoison, DoCommit, DoMonitorPoll;
    var t := CallingNext(s, e).value;
    match e
    case Capture(id, kind) => NewCallRefused(s, id, kind);
    case CallReturns(id, r) => ReplyRefused(s, id, r);
    case PoisonStep(id) => PoisonRefused(s, id);
    case CommitStep(id) => CommitRefused(s, id);
    case MonitorPoll(id) => PollRefused(s, id);
    case MonitorObserve => CallsUntouched(s, t);
    case MonitorDecide => CallsUntouched(s, t);
    case MonitorCancel => CallsUntouched(s, t);
  }

  lemma PolledRefused(s: State, t: State, u: State)
    requires CallsRefused(s, u) && u.calls == t.calls
    ensures CallsRefused(s, t)
  {
  }

  lemma CallsRefusedStep(s: State, e: Step)
    requires s.core.closed && Next(s, e).Some?
    ensures CallsRefused(s, Next(s, e).value)
  {
    hide CallsRefused, StartingNext, HandshakeNext, UndoingNext, StoppingNext, CallingNext, PluginNext;
    if IsCallingStep(e) {
      CallsRefusedCalling(s, e);
    } else {
      CallsUntouched(s, Next(s, e).value);
    }
  }

  lemma CallsRefusedTwice(s: State, t: State, u: State)
    requires CallsRefused(s, t) && CallsRefused(t, u)
    ensures CallsRefused(s, u)
  {
  }

  lemma {:induction false} CallsStayRefused(s: State, es: seq<Step>)
    requires Inv(s) && s.core.closed && RunFrom(s, es).Some?
    ensures CallsRefused(s, RunFrom(s, es).value)
    decreases |es|
  {
    hide Inv, Next;
    if es != [] {
      var t := Next(s, es[0]).value;
      CallsRefusedStep(s, es[0]);
      NextKeeps(s, es[0]);
      ClosedStays(s, [es[0]]);
      assert RunFrom(s, [es[0]]) == Some(t);
      hide CallsRefused;
      CallsStayRefused(t, es[1..]);
      CallsRefusedTwice(s, t, RunFrom(s, es).value);
    }
  }

  /**
   Closing is final. Over every continuation of the run the manager keeps its state, refuses every operation,
   fails every call begun since, and accepts no heartbeat.
   */
  lemma ClosedForever(s: State, es: seq<Step>)
    requires Reachable(s) && s.core.closed && RunFrom(s, es).Some?
    ensures s.core.client.None? && s.core.cmd.None?
    ensures OnlyRefuses(s, RunFrom(s, es).value)
    ensures CallsRefused(s, RunFrom(s, es).value)
  {
    hide Inv, OnlyRefuses, CallsRefused, Next, RunFrom;
    ReachableInv(s);
    ClosedHasShape(s);
    ClosedStays(s, es);
    CallsStayRefused(s, es);
  }

  /** However often Close is called, it reports the same error. */
  lemma CloseReportsOneError(s: State, i: nat, j: nat)
    requires Reachable(s) && i < |s.results| && j < |s.results|
    requires s.results[i].op.OpClose? && s.results[j].op.OpClose?
    ensures s.results[i].err == s.results[j].err
  {
    ReachableInv(s);
  }

  // ----- processes and files -----

  /** Apart from processes that could not be reaped, at most one is alive, and somebody answers for it. */
  lemma AtMostOneProcess(s: State)
    requires Reachable(s)
    ensures s.live <= HeldByManager(s.core) + HeldByOperation(s.life) + s.unreaped
    ensures |s.live - s.unreaped| <= 1
  {
    hide SuccessfulStarts, PluginsOk, CloseOk, MonitorOk, FilesOk, CallsOk, ClientsOk;
    ReachableInv(s);
    var held := HeldByManager(s.core) + HeldByOperation(s.life);
    assert |held| <= 1 by {
      assert s.core.cmd.Some? ==> HeldByOperation(s.life) == {};
      assert held == HeldByManager(s.core) || held == HeldByOperation(s.life);
    }
    SubsetSize(s.live - s.unreaped, held);
  }

  lemma SubsetSize<T>(a: set<T>, b: set<T>)
    requires a <= b
    ensures |a| <= |b|
  {
    assert b == a + (b - a);
  }

  /**
   Which files lie around while nothing runs, starts or is cleaned up. A start that could not launch its process
   leaves its token, always; apart from files of an earlier supervisor, failing removals and failing writes,
   waits that failed and what processes do that nobody waits for, that is the only way a file is left.
   */
  lemma QuietFilesExactly(s: State)
    requires Reachable(s) && Quiet(s.core, s.life)
    ensures s.residue <= {LaunchFailed} ==> !s.socketFile && (s.authFile.Some? <==> LaunchFailed in s.residue)
    ensures LaunchFailed in s.residue ==> s.authFile.Some?
    ensures s.residue == {} ==> !s.socketFile && s.authFile == None
  {
    ReachableInv(s);
  }

  /** Whenever a token is written and the process then cannot be launched, the start fails and the token stays. */
  lemma LaunchFailureAlwaysLeavesToken(s: State)
    requires Reachable(s) && InAttempt(s.life) && s.life.at.stage.Armed?
    ensures RunFrom(s, [Launch(None), RollbackStep]).Some?
    ensures
      var t := RunFrom(s, [Launch(None), RollbackStep]).value;
      && t.life.Idle?
      && t.results == s.results + [Returned(s.life.op, Some(StartFailed))]
      && t.authFile == Some(s.life.at.stage.token)
      && t.residue == s.residue + {LaunchFailed}
  {
    hide Inv;
    ReachableInv(s);
    FilesFacts(s);
    hide FilesOk;
    var mid := s.(residue := s.residue + {LaunchFailed},
                  life := Busy(s.life.op, Attempt(s.life.at.gen, Rolling(false))));
    LaunchFails(s, mid);
    NextKeeps(s, Launch(None));
    RollsBack(mid);
    RunTwo(s, Launch(None), RollbackStep);
  }

  lemma LaunchFails(s: State, mid: State)
    requires InAttempt(s.life) && s.life.at.stage.Armed?
    requires mid == s.(residue := s.residue + {LaunchFailed},
                       life := Busy(s.life.op, Attempt(s.life.at.gen, Rolling(false))))
    ensures Next(s, Launch(None)) == Some(mid)
  {
    hide HandshakeNext, UndoingNext, StoppingNext, CallingNext, PluginNext;
  }

  lemma RollsBack(s: State)
    requires InAttempt(s.life) && s.life.at.stage == Rolling(false)
    ensures Next(s, RollbackStep).Some?
    ensures
      var t := Next(s, RollbackStep).value;
      && t.life.Idle? && t.authFile == s.authFile && t.residue == s.residue
      && t.results == s.results + [Returned(s.life.op, Some(StartFailed))]
  {
    hide StartingNext, HandshakeNext, StoppingNext, CallingNext, PluginNext;
  }

  lemma RunTwo(s: State, e: Step, f: Step)
    requires Next(s, e).Some?
    ensures RunFrom(s, [e, f]) == Next(Next(s, e).value, f)
  {
    hide Next;
    var t := Next(s, e).value;
    assert [e, f][1..] == [f] && [f][1..] == [];
    assert RunFrom(t, [f]) == Next(t, f);
  }

  /** A cleanup that removes both files clears the remainder of earlier failures too, and finds nothing attached. */
  lemma CleanupClearsResidue(s: State)
    requires Reachable(s) && s.life.Busy? && s.life.at.Removing?
    ensures s.core.cmd.None? && s.core.client.None?
    ensures
      var t := Next(s, RemoveFiles(true, true)).value;
      t.residue == {} && !t.socketFile && t.authFile == None && t.core == s.core
  {
    hide StartingNext, HandshakeNext, UndoingNext, CallingNext, PluginNext;
    hide Inv;
    ReachableInv(s);
    RemovingFacts(s);
  }
}
