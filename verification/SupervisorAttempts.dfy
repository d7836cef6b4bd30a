/**
 Attempts to start the plugin: what was answered to an attempt that published a generation, and that an attempt with
 any other answer fails.
 */
module SupervisorAttempts {
  import opened Options
  import opened ManagerCore
  import opened PluginServer
  import opened Supervisor
  import opened SupervisorInvariant
  import opened SupervisorTheorems
  import opened SupervisorCalls
  import opened SupervisorMonitor

  // ----- what a run has seen -----

  /** The connection leads to the launched process. */
  predicate Verified(es: seq<Step>, p: Pid, c: ClientId) {
    Dial(Some((c, p))) in es && VerifyPeer(true) in es
  }

  /** The plugin named itself and the generation, and gave these capabilities, which are not an error. */
  predicate Told(es: seq<Step>, cfg: Config, gen: nat, caps: seq<string>) {
    CapsReply(cfg.pluginId, gen, caps) in es && "__capabilities_error__" !in caps
  }

  predicate HandshakeSeen(es: seq<Step>, cfg: Config, gen: nat, p: Pid, c: ClientId, h: Handshake) {
    match h
    case Verifying(peer) => Dial(Some((c, peer))) in es
    case Authenticating => Verified(es, p, c)
    case FetchingCapabilities => Verified(es, p, c)
    case Installing(caps) => Verified(es, p, c) && Told(es, cfg, gen, caps)
  }

  predicate StageSeen(es: seq<Step>, cfg: Config, gen: nat, g: Stage) {
    match g
    case Armed(token) => MakeToken(Written(token)) in es
    case Launched(token, p) => MakeToken(Written(token)) in es && Launch(Some(p)) in es
    case Connected(token, p, c, h) =>
      MakeToken(Written(token)) in es && Launch(Some(p)) in es && HandshakeSeen(es, cfg, gen, p, c, h)
    case _ => true
  }

  predicate LifeSeen(es: seq<Step>, cfg: Config, l: Lifecycle) {
    InAttempt(l) ==> StageSeen(es, cfg, l.at.gen, l.at.stage)
  }

  predicate PublicationSeen(es: seq<Step>, cfg: Config, gen: nat, pub: Publication) {
    && MakeToken(Written(pub.token)) in es && Launch(Some(pub.pid)) in es
    && Verified(es, pub.pid, pub.client) && Told(es, cfg, gen, pub.caps)
  }

  predicate PublishedSeen(es: seq<Step>, cfg: Config, pubs: seq<Publication>) {
    forall i :: 0 <= i < |pubs| ==> PublicationSeen(es, cfg, i + 1, pubs[i])
  }

  predicate Seen(es: seq<Step>, s: State) {
    LifeSeen(es, s.cfg, s.life) && PublishedSeen(es, s.cfg, s.published)
  }

  lemma SeenLonger(es: seq<Step>, e: Step, s: State)
    requires Seen(es, s)
    ensures Seen(es + [e], s)
  {
    assert forall f :: f in es ==> f in es + [e];
  }

  /** The step moves the attempt on and publishes nothing. */
  lemma SeenMove(es: seq<Step>, e: Step, s: State, t: State)
    requires Seen(es + [e], s) && t.cfg == s.cfg && t.published == s.published
    requires LifeSeen(es + [e], s.cfg, t.life)
    ensures Seen(es + [e], t)
  {
    hide LifeSeen, PublicationSeen;
  }

  // ----- steps that add nothing to the record -----

  /** No server and no publication changes, and no attempt holds a token. */
  predicate Plain(s: State, t: State) {
    && t.plugins == s.plugins && t.published == s.published
    && (InAttempt(t.life) ==>
          || t.life.at.stage.Reserved? || t.life.at.stage.Prepared?
          || t.life.at.stage.Failing? || t.life.at.stage.Rolling?)
  }

  lemma EnterIsPlain(s: State)
    requires DoEnter(s).Some?
    ensures Plain(s, DoEnter(s).value)
  {
  }

  lemma ReserveIsPlain(s: State)
    requires DoReserve(s).Some?
    ensures Plain(s, DoReserve(s).value)
  {
    hide Reserve;
  }

  lemma RemoveStaleIsPlain(s: State, a: bool, b: bool)
    requires DoRemoveStale(s, a, b).Some?
    ensures Plain(s, DoRemoveStale(s, a, b).value)
  {
    hide Cleared;
  }

  lemma ReapIsPlain(s: State, waited: bool)
    requires DoReap(s, waited).Some?
    ensures Plain(s, DoReap(s, waited).value)
  {
  }

  lemma RollbackIsPlain(s: State)
    requires DoRollback(s).Some?
    ensures Plain(s, DoRollback(s).value)
  {
    hide Rollback;
  }

  lemma StopIsPlain(s: State)
    requires DoStop(s).Some?
    ensures Plain(s, DoStop(s).value)
  {
    hide Detach, WorkAfterDetach;
  }

  lemma ShutdownIsPlain(s: State, a: CallOutcome)
    requires DoShutdownReply(s, a).Some?
    ensures Plain(s, DoShutdownReply(s, a).value)
  {
    hide Poison, FenceAccepts;
  }

  lemma WaitIsPlain(s: State, w: WaitOutcome)
    requires DoWait(s, w).Some?
    ensures Plain(s, DoWait(s, w).value)
  {
  }

  lemma MarkIsPlain(s: State)
    requires DoMark(s).Some?
    ensures Plain(s, DoMark(s).value)
  {
    hide MarkClosed;
  }

  lemma CloseLogIsPlain(s: State, ok: bool)
    requires DoCloseLog(s, ok).Some?
    ensures Plain(s, DoCloseLog(s, ok).value)
  {
  }

  lemma CleanupIsPlain(s: State, op: Op, after: After)
    requires !InAttempt(s.life)
    ensures Plain(s, CleanupReturns(s, op, after))
  {
  }

  lemma CheckOwnerIsPlain(s: State)
    requires s.life.Busy? && (s.life.at.FailedStart? || (s.life.at.Stopping? && s.life.at.work.CheckingOwner?))
    ensures Plain(s, DoCheckOwner(s).value)
  {
    var after := if s.life.at.FailedStart? then AfterFailedStart else AfterStop;
    assert DoCheckOwner(s) == Some(CheckOwnerOf(s, s.life.op, s.life.at.gen, after));
    hide CleanupOwns, CleanupReturns, DoCheckOwner;
    CleanupIsPlain(Flag(s, true, CleanupSkipped), s.life.op, after);
  }

  lemma RemoveFilesIsPlain(s: State, a: bool, b: bool)
    requires DoRemoveFiles(s, a, b).Some?
    ensures Plain(s, DoRemoveFiles(s, a, b).value)
  {
    var u := FilesRemoved(s, a, b);
    assert u.life == s.life && u.plugins == s.plugins && u.published == s.published;
    hide FilesRemoved, CleanupReturns;
    CleanupIsPlain(u, s.life.op, s.life.at.after);
  }

  lemma StartingIsPlain(s: State, e: Step)
    requires IsStartingStep(e) && !e.MakeToken? && !e.Launch? && StartingNext(s, e).Some?
    ensures Plain(s, StartingNext(s, e).value)
  {
    hide DoEnter, DoReserve, DoRemoveStale, DoMakeToken, DoLaunch;
    if e.Enter? {
      EnterIsPlain(s);
    } else if e.ReserveStep? {
      ReserveIsPlain(s);
    } else if e.RemoveStale? {
      RemoveStaleIsPlain(s, e.socketGone, e.authGone);
    }
  }

  lemma UndoingIsPlain(s: State, e: Step)
    requires IsUndoingStep(e) && UndoingNext(s, e).Some?
    ensures Plain(s, UndoingNext(s, e).value)
  {
    hide Plain, DoReap, DoRollback, DoStop, DoShutdownReply;
    if e.Reap? {
      ReapIsPlain(s, e.waited);
    } else if e.RollbackStep? {
      RollbackIsPlain(s);
    } else if e.StopStep? {
      StopIsPlain(s);
    } else {
      ShutdownIsPlain(s, e.answer);
    }
  }

  lemma StoppingIsPlain(s: State, e: Step)
    requires IsStoppingStep(e) && StoppingNext(s, e).Some?
    ensures Plain(s, StoppingNext(s, e).value)
  {
    hide Plain, DoWait, CheckOwnerOf, DoRemoveFiles, DoMark, DoCloseLog;
    if e.WaitStep? {
      WaitIsPlain(s, e.wait);
    } else if e.CheckOwner? {
      CheckOwnerIsPlain(s);
    } else if e.RemoveFiles? {
      RemoveFilesIsPlain(s, e.socketRemoved, e.authRemoved);
    } else if e.MarkStep? {
      MarkIsPlain(s);
    } else {
      CloseLogIsPlain(s, e.logOk);
    }
  }

  lemma PlainSeen(es: seq<Step>, s: State, t: State)
    requires Plain(s, t) && t.cfg == s.cfg && Seen(es, s)
    ensures Seen(es, t)
  {
    hide PublicationSeen;
  }

  /** As `Plain`, but the attempt may hold a token and a process that the run has seen. */
  predicate Arms(es: seq<Step>, s: State, t: State) {
    && t.plugins == s.plugins && t.published == s.published
    && LifeSeen(es, s.cfg, t.life) && !Connecting(t.life)
  }

  lemma MakeTokenSeen(es: seq<Step>, s: State, o: TokenOutcome)
    requires DoMakeToken(s, o).Some? && MakeToken(o) in es
    ensures Arms(es, s, DoMakeToken(s, o).value)
  {
  }

  lemma LaunchSeen(es: seq<Step>, s: State, p: Option<Pid>)
    requires DoLaunch(s, p).Some? && LifeSeen(es, s.cfg, s.life) && Launch(p) in es
    ensures Arms(es, s, DoLaunch(s, p).value)
  {
  }

  lemma ArmingSeen(es: seq<Step>, s: State, e: Step)
    requires (e.MakeToken? || e.Launch?) && StartingNext(s, e).Some? && LifeSeen(es, s.cfg, s.life) && e in es
    ensures Arms(es, s, StartingNext(s, e).value)
  {
    hide LifeSeen, Arms, DoMakeToken, DoLaunch;
    if e.MakeToken? {
      MakeTokenSeen(es, s, e.outcome);
    } else {
      LaunchSeen(es, s, e.process);
    }
  }

  lemma DialSeen(es: seq<Step>, s: State, e: Step)
    requires (e.Dial? || e.VerifyPeer?) && HandshakeNext(s, e).Some? && LifeSeen(es, s.cfg, s.life) && e in es
    ensures
      var t := HandshakeNext(s, e).value;
      t.published == s.published && LifeSeen(es, s.cfg, t.life)
  {
    hide DoAuthReply, DoCapsReply, DoHandshakeBroken, DoInstall, DoAnnounced, Told;
  }

  lemma AuthReplySeen(es: seq<Step>, s: State, removed: bool)
    requires DoAuthReply(s, removed).Some? && LifeSeen(es, s.cfg, s.life)
    ensures
      var t := DoAuthReply(s, removed).value;
      t.published == s.published && LifeSeen(es, s.cfg, t.life)
  {
    hide Cleared, FenceAccepts, Told, Verified;
  }

  lemma CapsReplySeen(es: seq<Step>, s: State, id: string, gen: nat, caps: seq<string>)
    requires DoCapsReply(s, id, gen, caps).Some? && LifeSeen(es, s.cfg, s.life) && CapsReply(id, gen, caps) in es
    ensures
      var t := DoCapsReply(s, id, gen, caps).value;
      t.published == s.published && LifeSeen(es, s.cfg, t.life)
  {
    hide HandleGated, FenceAccepts, Verified;
  }

  lemma BrokenSeen(es: seq<Step>, s: State, poison: bool)
    requires DoHandshakeBroken(s, poison).Some?
    ensures
      var t := DoHandshakeBroken(s, poison).value;
      t.published == s.published && LifeSeen(es, s.cfg, t.life)
  {
    hide Poison;
  }

  lemma InstallSeen(es: seq<Step>, s: State)
    requires Inv(s) && DoInstall(s).Some? && Seen(es, s)
    ensures Seen(es, DoInstall(s).value)
  {
    AttemptNumber(s);
    hide Inv, Install, Told, Verified;
    var t := DoInstall(s).value;
    var k := |s.published|;
    assert t.published[..k] == s.published;
    assert PublicationSeen(es, s.cfg, k + 1, t.published[k]);
    forall i | 0 <= i < |t.published| ensures PublicationSeen(es, s.cfg, i + 1, t.published[i]) {
      assert i < k ==> t.published[i] == s.published[i];
    }
  }

  lemma AttemptNumber(s: State)
    requires Inv(s)
    ensures InAttempt(s.life) ==> s.life.at.gen == |s.published| + 1
  {
    hide SuccessfulStarts, PluginsOk, CloseOk, MonitorOk, ProcessesOk, FilesOk, CallsOk, ClientsOk, HistoryOk;
  }

  lemma HandshakeStepSeen(es: seq<Step>, s: State, e: Step)
    requires Inv(s) && IsHandshakeStep(e) && HandshakeNext(s, e).Some? && Seen(es, s) && e in es
    ensures Seen(es, HandshakeNext(s, e).value)
  {
    hide Inv, LifeSeen, PublicationSeen;
    hide DoDial, DoVerifyPeer, DoAuthReply, DoCapsReply, DoHandshakeBroken, DoInstall;
    if e.Dial? || e.VerifyPeer? {
      DialSeen(es, s, e);
    } else if e.AuthReply? {
      AuthReplySeen(es, s, e.authRemoved);
    } else if e.CapsReply? {
      CapsReplySeen(es, s, e.replyId, e.generation, e.caps);
    } else if e.HandshakeBroken? {
      BrokenSeen(es, s, e.poison);
    } else if e.InstallStep? {
      InstallSeen(es, s);
    } else {
      AnnouncedSeen(es, s);
    }
  }

  lemma AnnouncedSeen(es: seq<Step>, s: State)
    requires DoAnnounced(s).Some?
    ensures
      var t := DoAnnounced(s).value;
      t.published == s.published && LifeSeen(es, s.cfg, t.life)
  {
  }

  lemma CallingLeavesLife(s: State, e: Step)
    requires IsCallingStep(e) && CallingNext(s, e).Some?
    ensures CallingNext(s, e).value.life == s.life && CallingNext(s, e).value.published == s.published
  {
    hide FenceAccepts, HeartbeatCurrent, CommitHeartbeat, Poison, NewCall;
  }

  lemma PluginLeavesLife(s: State, e: Step)
    requires IsPluginStep(e) && PluginNext(s, e).Some?
    ensures PluginNext(s, e).value.life == s.life && PluginNext(s, e).value.published == s.published
  {
    hide HandleAuth, HandleGated;
  }

  lemma OthersLeaveLife(s: State, e: Step)
    requires (IsCallingStep(e) || IsPluginStep(e)) && Next(s, e).Some?
    ensures Next(s, e).value.life == s.life && Next(s, e).value.published == s.published
  {
    hide StartingNext, HandshakeNext, UndoingNext, StoppingNext, CallingNext, PluginNext;
    if IsCallingStep(e) {
      CallingLeavesLife(s, e);
    } else {
      PluginLeavesLife(s, e);
    }
  }

  lemma ConfigStays(s: State, e: Step)
    requires Next(s, e).Some?
    ensures Next(s, e).value.cfg == s.cfg
  {
    hide StartingNext, HandshakeNext, UndoingNext, StoppingNext, CallingNext, PluginNext;
  }

  lemma SeenStep(es: seq<Step>, s: State, e: Step)
    requires Inv(s) && Next(s, e).Some? && Seen(es, s) && e in es
    ensures Seen(es, Next(s, e).value)
  {
    ConfigStays(s, e);
    if IsCallingStep(e) || IsPluginStep(e) {
      OthersLeaveLife(s, e);
    } else {
      var t := Next(s, e).value;
      hide Inv, LifeSeen, PublicationSeen, Plain, StartingNext, HandshakeNext, UndoingNext, StoppingNext;
      if e.MakeToken? || e.Launch? {
        ArmingSeen(es, s, e);
      } else if IsStartingStep(e) {
        StartingIsPlain(s, e);
        PlainSeen(es, s, t);
      } else if IsHandshakeStep(e) {
        HandshakeStepSeen(es, s, e);
      } else if IsUndoingStep(e) {
        UndoingIsPlain(s, e);
        PlainSeen(es, s, t);
      } else {
        StoppingIsPlain(s, e);
        PlainSeen(es, s, t);
      }
    }
  }

  // ----- what the server answered -----

  ghost predicate Named(s: State, p: Pid, token: Token, gen: nat) {
    p in s.plugins && s.plugins[p].kernelAuth == Answered(token, true, s.cfg.pluginId, gen)
  }

  /** A handshake past its Auth call, and every publication, has the right answer to that call on record. */
  ghost predicate AnswersOk(s: State) {
    && (Connecting(s.life) && s.life.at.stage.handshake.Verifying? ==> s.life.at.stage.handshake.peer in s.plugins)
    && (Connecting(s.life) && (s.life.at.stage.handshake.FetchingCapabilities? || s.life.at.stage.handshake.Installing?)
        ==> Named(s, s.life.at.stage.pid, s.life.at.stage.token, s.life.at.gen))
    && (forall i :: 0 <= i < |s.published| ==> Named(s, s.published[i].pid, s.published[i].token, i + 1))
  }

  /** No record is lost: known servers stay known, and an answer that was given is kept. */
  ghost predicate KeepsAnswers(s: State, t: State) {
    && t.cfg == s.cfg
    && (forall p :: p in s.plugins ==> p in t.plugins)
    && (forall p :: p in s.plugins && s.plugins[p].kernelAuth.Answered? ==>
          t.plugins[p].kernelAuth == s.plugins[p].kernelAuth)
  }

  lemma AnswersMove(s: State, t: State)
    requires AnswersOk(s) && KeepsAnswers(s, t) && t.published == s.published
    requires t.life == s.life || !Connecting(t.life)
    ensures AnswersOk(t)
  {
  }

  lemma PlainAnswers(s: State, t: State)
    requires AnswersOk(s) && Plain(s, t) && t.cfg == s.cfg
    ensures AnswersOk(t)
  {
  }

  lemma ArmingAnswers(s: State, e: Step)
    requires AnswersOk(s) && (e.MakeToken? || e.Launch?) && StartingNext(s, e).Some?
    ensures AnswersOk(StartingNext(s, e).value)
  {
    hide DoBegin, DoEnter, DoReserve, DoRemoveStale;
  }

  lemma CallingPlain(s: State, e: Step)
    requires IsCallingStep(e) && CallingNext(s, e).Some?
    ensures CallingNext(s, e).value.plugins == s.plugins
  {
    hide FenceAccepts, HeartbeatCurrent, CommitHeartbeat, Poison, NewCall;
  }

  lemma PluginKeepsAnswers(s: State, e: Step)
    requires IsPluginStep(e) && PluginNext(s, e).Some?
    ensures KeepsAnswers(s, PluginNext(s, e).value)
  {
    hide HandleAuth, HandleGated;
  }

  lemma DialAnswers(s: State, connection: Option<(ClientId, Pid)>)
    requires AnswersOk(s) && DoDial(s, connection).Some?
    ensures AnswersOk(DoDial(s, connection).value)
  {
  }

  /** The pid of the attempt is nobody else's. */
  lemma FreshPid(s: State)
    requires Inv(s) && Connecting(s.life)
    ensures forall i :: 0 <= i < |s.published| ==> s.published[i].pid != s.life.at.stage.pid
  {
    hide SuccessfulStarts, PluginsOk, CloseOk, MonitorOk, FilesOk, CallsOk, ClientsOk, HistoryOk, CoreOk, LifeOk;
  }

  lemma VerifyAnswers(s: State, readable: bool)
    requires Inv(s) && AnswersOk(s) && DoVerifyPeer(s, readable).Some?
    ensures AnswersOk(DoVerifyPeer(s, readable).value)
  {
    FreshPid(s);
    hide Inv;
  }

  /** The token that was sent is the attempt's. */
  lemma TokenSent(s: State)
    requires Inv(s) && Connecting(s.life) && s.life.at.stage.handshake.Authenticating?
    ensures s.life.at.stage.pid in s.plugins && !s.plugins[s.life.at.stage.pid].kernelAuth.NotSent?
    ensures s.plugins[s.life.at.stage.pid].kernelAuth.token == s.life.at.stage.token
  {
    hide SuccessfulStarts, ProcessesOk, CloseOk, MonitorOk, FilesOk, CallsOk, ClientsOk, HistoryOk, CoreOk, LifeOk;
  }

  lemma AuthAnswers(s: State, removed: bool)
    requires Inv(s) && AnswersOk(s) && DoAuthReply(s, removed).Some?
    ensures AnswersOk(DoAuthReply(s, removed).value)
  {
    TokenSent(s);
    hide Inv, Cleared, FenceAccepts;
  }

  lemma CapsAnswers(s: State, id: string, gen: nat, caps: seq<string>)
    requires AnswersOk(s) && DoCapsReply(s, id, gen, caps).Some?
    ensures AnswersOk(DoCapsReply(s, id, gen, caps).value)
  {
    hide HandleGated, FenceAccepts;
  }

  lemma InstallAnswers(s: State)
    requires Inv(s) && AnswersOk(s) && DoInstall(s).Some?
    ensures AnswersOk(DoInstall(s).value)
  {
    AttemptNumber(s);
    hide Inv, Install;
    var t, k := DoInstall(s).value, |s.published|;
    forall i | 0 <= i < |t.published| ensures Named(t, t.published[i].pid, t.published[i].token, i + 1) {
      assert i < k ==> t.published[i] == s.published[i] && Named(s, s.published[i].pid, s.published[i].token, i + 1);
    }
  }

  lemma HandshakeAnswers(s: State, e: Step)
    requires Inv(s) && AnswersOk(s) && IsHandshakeStep(e) && HandshakeNext(s, e).Some?
    ensures AnswersOk(HandshakeNext(s, e).value)
  {
    hide Inv, AnswersOk;
    hide DoDial, DoVerifyPeer, DoAuthReply, DoCapsReply, DoHandshakeBroken, DoInstall, DoAnnounced;
    if e.Dial? {
      DialAnswers(s, e.connection);
    } else if e.VerifyPeer? {
      VerifyAnswers(s, e.readable);
    } else if e.AuthReply? {
      AuthAnswers(s, e.authRemoved);
    } else if e.CapsReply? {
      CapsAnswers(s, e.replyId, e.generation, e.caps);
    } else if e.InstallStep? {
      InstallAnswers(s);
    } else if e.HandshakeBroken? {
      BrokenAnswers(s, e.poison);
    } else {
      AnnouncedAnswers(s);
    }
  }

  lemma BrokenAnswers(s: State, poison: bool)
    requires AnswersOk(s) && DoHandshakeBroken(s, poison).Some?
    ensures AnswersOk(DoHandshakeBroken(s, poison).value)
  {
    hide Poison;
  }

  lemma AnnouncedAnswers(s: State)
    requires AnswersOk(s) && DoAnnounced(s).Some?
    ensures AnswersOk(DoAnnounced(s).value)
  {
  }

  lemma AnswersStep(s: State, e: Step)
    requires Inv(s) && AnswersOk(s) && Next(s, e).Some?
    ensures AnswersOk(Next(s, e).value)
  {
    ConfigStays(s, e);
    if IsCallingStep(e) || IsPluginStep(e) {
      OthersAnswer(s, e);
    } else {
      var t := Next(s, e).value;
      hide Inv, AnswersOk, Plain, HandshakeNext, CallingNext, PluginNext, StartingNext, UndoingNext, StoppingNext;
      if e.MakeToken? || e.Launch? {
        ArmingAnswers(s, e);
      } else if IsStartingStep(e) {
        StartingIsPlain(s, e);
        PlainAnswers(s, t);
      } else if IsHandshakeStep(e) {
        HandshakeAnswers(s, e);
      } else if IsUndoingStep(e) {
        UndoingIsPlain(s, e);
        PlainAnswers(s, t);
      } else {
        StoppingIsPlain(s, e);
        PlainAnswers(s, t);
      }
    }
  }

  lemma OthersKeepAnswers(s: State, e: Step)
    requires (IsCallingStep(e) || IsPluginStep(e)) && Next(s, e).Some?
    ensures KeepsAnswers(s, Next(s, e).value)
  {
    hide Next, CallingNext, PluginNext;
    ConfigStays(s, e);
    if IsCallingStep(e) {
      CallingIsNext(s, e);
      CallingPlain(s, e);
    } else {
      PluginIsNext(s, e);
      PluginKeepsAnswers(s, e);
    }
  }

  lemma OthersAnswer(s: State, e: Step)
    requires AnswersOk(s) && (IsCallingStep(e) || IsPluginStep(e)) && Next(s, e).Some?
    ensures AnswersOk(Next(s, e).value)
  {
    hide AnswersOk, KeepsAnswers, Next;
    OthersLeaveLife(s, e);
    OthersKeepAnswers(s, e);
    AnswersMove(s, Next(s, e).value);
  }

  // ----- over whole runs -----

  lemma {:induction false} TraceSeen(before: seq<Step>, s: State, es: seq<Step>)
    requires Inv(s) && Seen(before, s) && AnswersOk(s) && RunFrom(s, es).Some?
    ensures
      var t := RunFrom(s, es).value;
      Seen(before + es, t) && AnswersOk(t) && t.cfg == s.cfg
    decreases |es|
  {
    hide Inv, Next, Seen, AnswersOk;
    if es == [] {
      assert before + es == before;
    } else {
      var t := Next(s, es[0]).value;
      SeenLonger(before, es[0], s);
      SeenStep(before + [es[0]], s, es[0]);
      AnswersStep(s, es[0]);
      ConfigStays(s, es[0]);
      NextKeeps(s, es[0]);
      TraceSeen(before + [es[0]], t, es[1..]);
      assert before + [es[0]] + es[1..] == before + es;
    }
  }

  /**
   Every published generation was earned by what the run saw: its token was written, its process launched, the
   connection led to that process, and both answers of the plugin named this plugin and this generation, with exactly
   these capabilities.
   */
  lemma PublishedAsAnswered(s: State, cfg: Config, socketFile: bool, authFile: Option<Token>, es: seq<Step>, i: nat)
    requires ReachableBy(s, cfg, socketFile, authFile, es) && i < |s.published|
    ensures
      var pub := s.published[i];
      && MakeToken(Written(pub.token)) in es && Launch(Some(pub.pid)) in es
      && Dial(Some((pub.client, pub.pid))) in es && VerifyPeer(true) in es
      && CapsReply(cfg.pluginId, i + 1, pub.caps) in es && "__capabilities_error__" !in pub.caps
      && pub.pid in s.plugins
      && s.plugins[pub.pid].kernelAuth == Answered(pub.token, true, cfg.pluginId, i + 1)
  {
    hide Inv, RunFrom;
    var init := Init(cfg, socketFile, authFile);
    InitInv(cfg, socketFile, authFile);
    TraceSeen([], init, es);
    assert [] + es == es;
    assert PublicationSeen(es, cfg, i + 1, s.published[i]);
    assert Named(s, s.published[i].pid, s.published[i].token, i + 1);
  }

  // ----- attempts that go on, and attempts that are lost -----

  /** The attempt has failed and is being cleaned up. */
  predicate Lost(l: Lifecycle) {
    l.Busy? && (l.op.OpStart? || l.op.OpRestart?)
    && match l.at
       case Attempt(_, stage) => stage.Failing? || stage.Rolling?
       case FailedStart(_) => true
       case Removing(after) => after.AfterFailedStart?
       case _ => false
  }

  /** Where an attempt goes with this outcome, if it survives it. */
  ghost function Onward(s: State, e: Step): Option<Place>
    requires InAttempt(s.life)
  {
    var gen := s.life.at.gen;
    match (s.life.at.stage, e)
    case (Reserved, RemoveStale(_, _)) => Some(Attempt(gen, Prepared))
    case (Prepared, MakeToken(Written(token))) => Some(Attempt(gen, Armed(token)))
    case (Armed(token), Launch(Some(p))) => Some(Attempt(gen, Launched(token, p)))
    case (Launched(token, p), Dial(Some((c, peer)))) => Some(Attempt(gen, Connected(token, p, c, Verifying(peer))))
    case (Connected(token, p, c, Verifying(peer)), VerifyPeer(true)) =>
      if peer == p then Some(Attempt(gen, Connected(token, p, c, Authenticating))) else None
    case (Connected(token, p, c, Authenticating), AuthReply(_)) =>
      if Named(s, p, token, gen) then Some(Attempt(gen, Connected(token, p, c, FetchingCapabilities))) else None
    case (Connected(token, p, c, FetchingCapabilities), CapsReply(id, answered, caps)) =>
      if id == s.cfg.pluginId && answered == gen && "__capabilities_error__" !in caps
      then Some(Attempt(gen, Connected(token, p, c, Installing(caps)))) else None
    case (Connected(_, _, _, Installing(_)), InstallStep) => Some(Announcing)
    case _ => None
  }

  predicate IsAttemptStep(e: Step) {
    e.RemoveStale? || e.MakeToken? || e.Launch? || (IsHandshakeStep(e) && !e.Announced?)
  }

  lemma PreparingGoesOn(s: State, e: Step)
    requires InAttempt(s.life) && (s.life.op.OpStart? || s.life.op.OpRestart?)
    requires (e.RemoveStale? || e.MakeToken? || e.Launch?) && StartingNext(s, e).Some?
    ensures
      var t := StartingNext(s, e).value;
      if Onward(s, e).Some? then t.life == Busy(s.life.op, Onward(s, e).value) else Lost(t.life)
  {
    hide DoBegin, DoEnter, DoReserve, Cleared, Named;
  }

  lemma DialGoesOn(s: State, e: Step)
    requires InAttempt(s.life) && (s.life.op.OpStart? || s.life.op.OpRestart?) && AnswersOk(s)
    requires (e.Dial? || e.VerifyPeer?) && HandshakeNext(s, e).Some?
    ensures
      var t := HandshakeNext(s, e).value;
      if Onward(s, e).Some? then t.life == Busy(s.life.op, Onward(s, e).value) else Lost(t.life)
  {
    hide DoAuthReply, DoCapsReply, DoHandshakeBroken, DoInstall, DoAnnounced, Named;
  }

  lemma AuthGoesOn(s: State, removed: bool)
    requires Inv(s) && InAttempt(s.life) && DoAuthReply(s, removed).Some?
    ensures
      var t, e := DoAuthReply(s, removed).value, AuthReply(removed);
      if Onward(s, e).Some? then t.life == Busy(s.life.op, Onward(s, e).value) else Lost(t.life)
  {
    TokenSent(s);
    InternalReplyCurrent(s, s.life.at.stage.client);
    ClosedHasNoPlace(s);
    hide Inv, Cleared, FenceAccepts;
  }

  lemma ClosedHasNoPlace(s: State)
    requires Inv(s)
    ensures InAttempt(s.life) ==> s.life.op.OpStart? || s.life.op.OpRestart?
  {
    hide SuccessfulStarts, PluginsOk, CloseOk, MonitorOk, ProcessesOk, FilesOk, CallsOk, ClientsOk, HistoryOk, CoreOk;
  }

  lemma CapsGoesOn(s: State, id: string, gen: nat, caps: seq<string>)
    requires Inv(s) && InAttempt(s.life) && DoCapsReply(s, id, gen, caps).Some?
    ensures
      var t, e := DoCapsReply(s, id, gen, caps).value, CapsReply(id, gen, caps);
      if Onward(s, e).Some? then t.life == Busy(s.life.op, Onward(s, e).value) else Lost(t.life)
  {
    InternalReplyCurrent(s, s.life.at.stage.client);
    ClosedHasNoPlace(s);
    hide Inv, HandleGated, FenceAccepts, Named;
  }

  lemma LastGoesOn(s: State, e: Step)
    requires InAttempt(s.life) && (s.life.op.OpStart? || s.life.op.OpRestart?)
    requires (e.HandshakeBroken? || e.InstallStep?) && HandshakeNext(s, e).Some?
    ensures
      var t := HandshakeNext(s, e).value;
      if Onward(s, e).Some? then t.life == Busy(s.life.op, Onward(s, e).value) else Lost(t.life)
  {
    hide DoDial, DoVerifyPeer, DoAuthReply, DoCapsReply, DoAnnounced, Named, Install, Poison;
  }

  /** An attempt goes on exactly with the right outcome at each stage; with any other it is lost. */
  lemma AttemptGoesOnExactly(s: State, e: Step)
    requires Reachable(s) && InAttempt(s.life) && IsAttemptStep(e) && Next(s, e).Some?
    ensures
      var t := Next(s, e).value;
      if Onward(s, e).Some? then t.life == Busy(s.life.op, Onward(s, e).value) else Lost(t.life)
  {
    ReachableAnswers(s);
    ClosedHasNoPlace(s);
    hide Inv, AnswersOk, Onward, Lost, UndoingNext, StoppingNext, CallingNext, PluginNext;
    if e.RemoveStale? || e.MakeToken? || e.Launch? {
      hide DoBegin, DoEnter, DoReserve, DoRemoveStale, DoMakeToken, DoLaunch, HandshakeNext;
      PreparingGoesOn(s, e);
    } else {
      hide DoDial, DoVerifyPeer, DoAuthReply, DoCapsReply, DoHandshakeBroken, DoInstall, DoAnnounced, StartingNext;
      if e.Dial? || e.VerifyPeer? {
        DialGoesOn(s, e);
      } else if e.AuthReply? {
        AuthGoesOn(s, e.authRemoved);
      } else if e.CapsReply? {
        CapsGoesOn(s, e.replyId, e.generation, e.caps);
      } else {
        LastGoesOn(s, e);
      }
    }
  }

  lemma ReachableAnswers(s: State)
    requires Reachable(s)
    ensures Inv(s) && AnswersOk(s)
  {
    ReachableInv(s);
    hide Inv, RunFrom, AnswersOk;
    var cfg, socketFile, authFile, es :| ReachableBy(s, cfg, socketFile, authFile, es);
    InitInv(cfg, socketFile, authFile);
    InitAnswers(cfg, socketFile, authFile);
    TraceSeen([], Init(cfg, socketFile, authFile), es);
  }

  lemma InitAnswers(cfg: Config, socketFile: bool, authFile: Option<Token>)
    ensures AnswersOk(Init(cfg, socketFile, authFile)) && Seen([], Init(cfg, socketFile, authFile))
  {
  }

  // ----- a lost attempt fails -----

  /** Still lost, or returned as a failed start; nothing is published on the way. */
  predicate Loses(s: State, t: State)
    requires s.life.Busy?
  {
    && t.published == s.published
    && if t.results == s.results then Lost(t.life) && t.life.op == s.life.op
       else t.life.Idle? && t.results == s.results + [Returned(s.life.op, Some(StartFailed))]
  }

  lemma UndoingLoses(s: State, e: Step)
    requires Lost(s.life) && IsUndoingStep(e) && UndoingNext(s, e).Some?
    ensures Loses(s, UndoingNext(s, e).value)
  {
    hide DoStop, DoShutdownReply, Rollback;
    if e.StopStep? {
      NoStop(s);
    } else if e.ShutdownReply? {
      NoShutdown(s, e.answer);
    }
  }

  lemma NoStop(s: State)
    requires Lost(s.life)
    ensures DoStop(s).None?
  {
  }

  lemma NoShutdown(s: State, a: CallOutcome)
    requires Lost(s.life)
    ensures DoShutdownReply(s, a).None?
  {
  }

  lemma CheckOwnerLoses(s: State)
    requires Inv(s) && Lost(s.life) && s.life.at.FailedStart?
    ensures Loses(s, DoCheckOwner(s).value)
  {
    CleanupAlwaysOwns(s);
    hide Inv;
  }

  lemma RemovalLoses(s: State, a: bool, b: bool)
    requires Lost(s.life) && s.life.at.Removing?
    ensures Loses(s, DoRemoveFiles(s, a, b).value)
  {
    hide Cleared;
  }

  lemma StoppingLoses(s: State, e: Step)
    requires Inv(s) && Lost(s.life) && IsStoppingStep(e) && StoppingNext(s, e).Some?
    ensures Loses(s, StoppingNext(s, e).value)
  {
    hide Inv, Loses, CheckOwnerOf, CleanupReturns, FilesRemoved;
    if e.CheckOwner? {
      CheckOwnerLoses(s);
    } else if e.RemoveFiles? {
      RemovalLoses(s, e.socketRemoved, e.authRemoved);
    }
  }

  lemma NoStart(s: State, e: Step)
    requires Lost(s.life) && (IsStartingStep(e) || IsHandshakeStep(e))
    ensures Next(s, e).None?
  {
    hide UndoingNext, StoppingNext, CallingNext, PluginNext;
  }

  lemma LosesStep(s: State, e: Step)
    requires Inv(s) && Lost(s.life) && Next(s, e).Some?
    ensures Loses(s, Next(s, e).value)
  {
    if IsStartingStep(e) || IsHandshakeStep(e) {
      NoStart(s, e);
    } else if IsCallingStep(e) || IsPluginStep(e) {
      OthersLeaveLife(s, e);
      OthersEnd(s, e);
    } else {
      hide Inv, Loses, StartingNext, HandshakeNext, UndoingNext, StoppingNext, CallingNext, PluginNext;
      if IsUndoingStep(e) {
        UndoingLoses(s, e);
      } else {
        StoppingLoses(s, e);
      }
    }
  }

  lemma CallingEnds(s: State, e: Step)
    requires IsCallingStep(e) && CallingNext(s, e).Some?
    ensures CallingNext(s, e).value.results == s.results
  {
    hide FenceAccepts, HeartbeatCurrent, CommitHeartbeat, Poison, NewCall;
  }

  lemma OthersEnd(s: State, e: Step)
    requires Next(s, e).Some? && (IsCallingStep(e) || IsPluginStep(e))
    ensures Next(s, e).value.results == s.results
  {
    hide Next, CallingNext;
    if IsCallingStep(e) {
      CallingIsNext(s, e);
      CallingEnds(s, e);
    } else {
      PluginIsNext(s, e);
      PluginEnds(s, e);
    }
  }

  lemma PluginEnds(s: State, e: Step)
    requires IsPluginStep(e) && PluginNext(s, e).Some?
    ensures PluginNext(s, e).value.results == s.results
  {
    hide HandleAuth, HandleGated;
  }

  /** Results are never taken back. */
  lemma ResultsGrow(s: State, e: Step)
    requires Next(s, e).Some?
    ensures s.results <= Next(s, e).value.results
  {
    if IsCallingStep(e) || IsPluginStep(e) {
      OthersEnd(s, e);
    } else {
      MonitorWaits(s, e);
    }
  }

  lemma {:induction false} ResultsGrowOn(s: State, es: seq<Step>)
    requires RunFrom(s, es).Some?
    ensures s.results <= RunFrom(s, es).value.results
    decreases |es|
  {
    hide Next;
    if es != [] {
      ResultsGrow(s, es[0]);
      ResultsGrowOn(Next(s, es[0]).value, es[1..]);
    }
  }

  lemma {:induction false} LosesOn(s: State, es: seq<Step>)
    requires Inv(s) && Lost(s.life) && RunFrom(s, es).Some?
    ensures
      var t := RunFrom(s, es).value;
      || (t.results == s.results && Lost(t.life) && t.published == s.published)
      || s.results + [Returned(s.life.op, Some(StartFailed))] <= t.results
    decreases |es|
  {
    hide Inv, Next, Lost;
    if es != [] {
      var t := Next(s, es[0]).value;
      LosesStep(s, es[0]);
      NextKeeps(s, es[0]);
      if t.results == s.results {
        LosesOn(t, es[1..]);
      } else {
        ResultsGrowOn(t, es[1..]);
      }
    }
  }

  /** A lost attempt publishes nothing, and the operation ends as a failed start, whatever else goes on. */
  lemma LostAttemptFails(s: State, es: seq<Step>)
    requires Reachable(s) && Lost(s.life) && RunFrom(s, es).Some?
    ensures
      var t := RunFrom(s, es).value;
      || (t.results == s.results && Lost(t.life) && t.published == s.published)
      || s.results + [Returned(s.life.op, Some(StartFailed))] <= t.results
  {
    ReachableInv(s);
    hide Inv, RunFrom, Lost;
    LosesOn(s, es);
  }
}
