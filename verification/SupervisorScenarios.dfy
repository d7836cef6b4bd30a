/**
 Runs that exist: the first generation can be published, and three comfortable beliefs about the
 supervisor are false without the conditions that the theorems state.
 */
module SupervisorScenarios {
  import opened Options
  import opened ManagerCore
  import opened PluginServer
  import opened Supervisor

  lemma {:induction false} RunOneMore(s: State, es: seq<Step>, e: Step)
    requires RunFrom(s, es).Some?
    ensures RunFrom(s, es + [e]) == Next(RunFrom(s, es).value, e)
    decreases |es|
  {
    if es == [] {
      assert ([] + [e])[1..] == [];
    } else {
      assert (es + [e])[1..] == es[1..] + [e];
      RunOneMore(Next(s, es[0]).value, es[1..], e);
    }
  }

  /** Reachability is closed under steps. */
  lemma OneMoreStep(s: State, e: Step)
    requires Reachable(s) && Next(s, e).Some?
    ensures Reachable(Next(s, e).value)
  {
    hide Next;
    var cfg, socketFile, authFile, es :| ReachableBy(s, cfg, socketFile, authFile, es);
    RunOneMore(Init(cfg, socketFile, authFile), es, e);
    assert ReachableBy(Next(s, e).value, cfg, socketFile, authFile, es + [e]);
  }

  const TOKEN: Token := "t"

  lemma NewIsReachable(cfg: Config)
    requires cfg.Valid()
    ensures Reachable(Init(cfg, false, None))
  {
    assert RunFrom(Init(cfg, false, None), []) == Some(Init(cfg, false, None));
    assert ReachableBy(Init(cfg, false, None), cfg, false, None, []);
  }

  /** One step of a scenario, with the state it leads to. */
  lemma Take(s: State, e: Step, t: State) returns (r: State)
    requires Reachable(s) && Next(s, e) == Some(t)
    ensures r == t && Reachable(t)
  {
    hide Next;
    OneMoreStep(s, e);
    r := t;
  }

  // ----- pieces of runs -----

  function ReservedCore(s: State): Core {
    s.core.(state := PluginState(s.cfg.pluginId, s.core.state.generation + 1, false, [], s.cfg.socketPath, 0))
  }

  predicate Stopped(s: State) {
    s.life.Idle? && !s.core.closed && s.core.cmd.None? && s.core.client.None?
  }

  lemma Reserves(s: State)
    requires Reachable(s) && Stopped(s)
    ensures Reachable(s.(core := ReservedCore(s),
                         life := Busy(OpStart, Attempt(s.core.state.generation + 1, Reserved))))
  {
    hide HandshakeNext, UndoingNext, StoppingNext, CallingNext, PluginNext;
    var t := Take(s, Begin(OpStart), s.(life := Busy(OpStart, Entered)));
    t := Take(t, Enter, t.(life := Busy(OpStart, StartEntry)));
    t := Take(t, ReserveStep,
              s.(core := ReservedCore(s), life := Busy(OpStart, Attempt(s.core.state.generation + 1, Reserved))));
  }

  /** From a stopped manager to the point where the process would be launched. */
  function ArmedState(s: State): State {
    s.(core := ReservedCore(s), socketFile := false, authFile := Some(TOKEN), residue := {},
       life := Busy(OpStart, Attempt(s.core.state.generation + 1, Armed(TOKEN))))
  }

  lemma Arms(s: State)
    requires Reachable(s) && Stopped(s)
    ensures Reachable(ArmedState(s))
  {
    hide HandshakeNext, UndoingNext, StoppingNext, CallingNext, PluginNext;
    Reserves(s);
    var gen := s.core.state.generation + 1;
    var t := s.(core := ReservedCore(s), life := Busy(OpStart, Attempt(gen, Reserved)));
    t := Take(t, RemoveStale(true, true),
              t.(socketFile := false, authFile := None, residue := {}, life := Busy(OpStart, Attempt(gen, Prepared))));
    t := Take(t, MakeToken(Written(TOKEN)), ArmedState(s));
  }

  lemma Launches(s: State, p: Pid)
    requires Reachable(s) && s.life.Busy? && s.life.at.Attempt? && s.life.at.stage == Armed(TOKEN) && p !in s.launched
    ensures Reachable(s.(live := s.live + {p}, launched := s.launched + {p},
                         life := Busy(s.life.op, Attempt(s.life.at.gen, Launched(TOKEN, p)))))
  {
    hide HandshakeNext, UndoingNext, StoppingNext, CallingNext, PluginNext;
    var t := Take(s, Launch(Some(p)),
                  s.(live := s.live + {p}, launched := s.launched + {p},
                     life := Busy(s.life.op, Attempt(s.life.at.gen, Launched(TOKEN, p)))));
  }

  // ----- the first generation -----

  /** The launched plugin has booted and the Auth request is out. */
  function CallingState(cfg: Config): State {
    ArmedState(Init(cfg, false, None)).(
      live := {1}, launched := {1}, dialed := {0}, socketFile := true,
      plugins := map[1 := Plugin(Boot(TOKEN), Pending(TOKEN))],
      life := Busy(OpStart, Attempt(1, Connected(TOKEN, 1, 0, Authenticating))))
  }

  lemma CallingIsReachable(cfg: Config)
    requires cfg.Valid()
    ensures Reachable(CallingState(cfg))
  {
    NewIsReachable(cfg);
    Arms(Init(cfg, false, None));
    var s := ArmedState(Init(cfg, false, None));
    Launches(s, 1);
    assert s.live + {1} == {1} && s.launched + {1} == {1};
    s := s.(live := {1}, launched := {1}, life := Busy(OpStart, Attempt(1, Launched(TOKEN, 1))));
    Connects(cfg, s);
  }

  lemma Connects(cfg: Config, s0: State)
    requires Reachable(s0)
    requires s0 == ArmedState(Init(cfg, false, None)).(
                     live := {1}, launched := {1}, life := Busy(OpStart, Attempt(1, Launched(TOKEN, 1))))
    ensures Reachable(CallingState(cfg))
  {
    hide StartingNext, UndoingNext, StoppingNext, CallingNext, PluginNext;
    BootsAndDials(s0);
    var s := s0.(plugins := s0.plugins[1 := Plugin(Boot(TOKEN), NotSent)], socketFile := true,
                 dialed := s0.dialed + {0}, life := Busy(OpStart, Attempt(1, Connected(TOKEN, 1, 0, Verifying(1)))));
    assert s.dialed == {0};
    assert s.plugins[1 := Plugin(Boot(TOKEN), Pending(TOKEN))] == map[1 := Plugin(Boot(TOKEN), Pending(TOKEN))];
    s := Take(s, VerifyPeer(true), CallingState(cfg));
  }

  lemma BootsAndDials(s0: State)
    requires Reachable(s0) && s0.life == Busy(OpStart, Attempt(1, Launched(TOKEN, 1)))
    requires 1 in s0.live && 1 !in s0.plugins && s0.authFile == Some(TOKEN) && 0 !in s0.dialed && 1 !in s0.unreaped
    ensures Reachable(s0.(plugins := s0.plugins[1 := Plugin(Boot(TOKEN), NotSent)], socketFile := true,
                          dialed := s0.dialed + {0},
                          life := Busy(OpStart, Attempt(1, Connected(TOKEN, 1, 0, Verifying(1))))))
  {
    hide StartingNext, UndoingNext, StoppingNext, CallingNext;
    var s := Take(s0, BootPlugin(1), s0.(plugins := s0.plugins[1 := Plugin(Boot(TOKEN), NotSent)], socketFile := true));
    s := Take(s, Dial(Some((0, 1))),
              s.(dialed := s0.dialed + {0}, life := Busy(OpStart, Attempt(1, Connected(TOKEN, 1, 0, Verifying(1))))));
  }

  const GREETED := Server(TOKEN, true, [] + [AuthAccepted(Kernel, TOKEN)])

  /** The plugin has accepted the token and is asked for its capabilities. */
  function GreetedState(cfg: Config): State {
    CallingState(cfg).(
      plugins := CallingState(cfg).plugins[1 := Plugin(GREETED, Answered(TOKEN, true, cfg.pluginId, 1))],
      authFile := None,
      life := Busy(OpStart, Attempt(1, Connected(TOKEN, 1, 0, FetchingCapabilities))))
  }

  /** The token is accepted and the supervisor has not seen the answer yet. */
  function AnsweredState(cfg: Config): State {
    CallingState(cfg).(
      plugins := CallingState(cfg).plugins[1 := Plugin(GREETED, Answered(TOKEN, true, cfg.pluginId, 1))])
  }

  lemma AnsweredIsReachable(cfg: Config)
    requires cfg.Valid()
    ensures Reachable(AnsweredState(cfg))
  {
    hide StartingNext, HandshakeNext, UndoingNext, StoppingNext, CallingNext;
    CallingIsReachable(cfg);
    assert HandleAuth(Boot(TOKEN), Kernel, TOKEN, true) == (GREETED, true);
    var s := Take(CallingState(cfg), KernelAuthServed(1, true, cfg.pluginId, 1), AnsweredState(cfg));
  }

  lemma GreetedIsReachable(cfg: Config)
    requires cfg.Valid()
    ensures Reachable(GreetedState(cfg))
  {
    hide StartingNext, UndoingNext, StoppingNext, CallingNext, PluginNext;
    AnsweredIsReachable(cfg);
    var s := AnsweredState(cfg);
    assert s.residue - {LaunchFailed} == {};
    s := Take(s, AuthReply(true), GreetedState(cfg));
  }

  /** The first generation is published and healthy. */
  function RunningState(cfg: Config): State {
    var s := GreetedState(cfg);
    s.(core := Core(PluginState(cfg.pluginId, 1, true, ["echo"], cfg.socketPath, 1), Some(1), Some(0), 0, false),
       plugins := s.plugins[1 := s.plugins[1].(server := HandleGated(GREETED).0)],
       published := [] + [Publication(1, 0, 0, 1, TOKEN, ["echo"])],
       results := [] + [Returned(OpStart, None)],
       life := Idle)
  }

  /** Everything is ready to be published. */
  function ReadyState(cfg: Config): State {
    GreetedState(cfg).(
      plugins := RunningState(cfg).plugins,
      life := Busy(OpStart, Attempt(1, Connected(TOKEN, 1, 0, Installing(["echo"])))))
  }

  lemma ReadyIsReachable(cfg: Config)
    requires cfg.Valid()
    ensures Reachable(ReadyState(cfg))
  {
    hide StartingNext, UndoingNext, StoppingNext, CallingNext, PluginNext;
    GreetedIsReachable(cfg);
    var s := Take(GreetedState(cfg), CapsReply(cfg.pluginId, 1, ["echo"]), ReadyState(cfg));
  }

  lemma Publishes(cfg: Config)
    requires cfg.Valid() && Reachable(ReadyState(cfg))
    ensures Reachable(RunningState(cfg).(results := [], life := Busy(OpStart, Announcing)))
  {
    hide StartingNext, UndoingNext, StoppingNext, CallingNext, PluginNext;
    var s := Take(ReadyState(cfg), InstallStep, RunningState(cfg).(results := [], life := Busy(OpStart, Announcing)));
  }

  /** The supervisor can do what it is for. */
  lemma RunningIsReachable(cfg: Config)
    requires cfg.Valid()
    ensures Reachable(RunningState(cfg))
  {
    hide StartingNext, UndoingNext, StoppingNext, CallingNext, PluginNext;
    ReadyIsReachable(cfg);
    Publishes(cfg);
    var s := RunningState(cfg).(results := [], life := Busy(OpStart, Announcing));
    s := Take(s, Announced, RunningState(cfg));
  }

  // ----- after a kill -----

  lemma EntersStop(s: State)
    requires Reachable(s) && s.life.Idle?
    ensures Reachable(s.(life := Busy(OpKill, StopEntry)))
  {
    hide HandshakeNext, UndoingNext, StoppingNext, CallingNext, PluginNext;
    var t := Take(s, Begin(OpKill), s.(life := Busy(OpKill, Entered)));
    t := Take(t, Enter, t.(life := Busy(OpKill, StopEntry)));
  }

  /** A kill of the first generation detaches client and process. */
  lemma Detaches(cfg: Config, s: State)
    requires Reachable(s) && s.life.Idle? && s.core == RunningState(cfg).core
    ensures Reachable(s.(core := Detach(s.core, false), life := Busy(OpKill, Stopping(1, ShutdownCall(0, Some(1))))))
  {
    hide StartingNext, HandshakeNext, StoppingNext, CallingNext, PluginNext;
    EntersStop(s);
    var t := s.(life := Busy(OpKill, StopEntry));
    t := Take(t, StopStep,
              t.(core := Detach(s.core, false), life := Busy(OpKill, Stopping(1, ShutdownCall(0, Some(1))))));
  }

  /** "A killed client's answers are rejected" fails in the first generation, whose epoch is 0. */
  lemma FirstGenerationAcceptsAfterKill(cfg: Config) returns (s: State)
    requires cfg.Valid()
    ensures Reachable(s) && s.core.client == None && 7 in s.calls
    ensures Next(s, CallReturns(7, Reply(true))).Some?
    ensures Next(s, CallReturns(7, Reply(true))).value.calls[7].phase == Done(Accepted)
  {
    hide StartingNext, HandshakeNext, UndoingNext, StoppingNext, PluginNext;
    RunningIsReachable(cfg);
    s := RunningState(cfg);
    s := Take(s, Capture(7, Echo), s.(calls := s.calls[7 := NewCall(s.core, Echo)]));
    Detaches(cfg, s);
    s := s.(core := Detach(s.core, false), life := Busy(OpKill, Stopping(1, ShutdownCall(0, Some(1)))));
    AcceptsNow(s, 7);
  }

  lemma AcceptsNow(s: State, id: nat)
    requires id in s.calls && s.calls[id] == Call(Echo, Some(0), 1, 0, Awaiting) && s.core.state.generation == 1
    ensures Next(s, CallReturns(id, Reply(true))) == Some(SetPhase(s, id, Done(Accepted)))
  {
    hide StartingNext, HandshakeNext, UndoingNext, StoppingNext, PluginNext;
  }

  /** "Never two plugin processes" fails once a process could not be waited for. */
  lemma TwoProcessesAfterFailedWait(cfg: Config) returns (s: State)
    requires cfg.Valid()
    ensures Reachable(s) && s.unreaped == {1} && s.live == {1, 2}
  {
    hide StartingNext, HandshakeNext, UndoingNext, StoppingNext, CallingNext, PluginNext;
    RunningIsReachable(cfg);
    s := RunningState(cfg);
    Detaches(cfg, s);
    s := s.(core := Detach(s.core, false), life := Busy(OpKill, Stopping(1, ShutdownCall(0, Some(1)))));
    s := FailsToWait(s);
    Arms(s);
    s := ArmedState(s);
    Launches(s, 2);
    assert s.live + {2} == {1, 2};
    s := s.(live := s.live + {2}, launched := s.launched + {2},
            life := Busy(s.life.op, Attempt(s.life.at.gen, Launched(TOKEN, 2))));
  }

  /** The kill of process 1 has given up. */
  function GivenUp(s: State): State {
    s.(unreaped := s.unreaped + {1}, residue := s.residue + {NotReaped}, life := Idle,
       results := s.results + [Returned(OpKill, Some(StopFailed))])
  }

  lemma FailsToWait(s0: State) returns (s: State)
    requires Reachable(s0) && s0.life == Busy(OpKill, Stopping(1, ShutdownCall(0, Some(1))))
    ensures Reachable(s) && s == GivenUp(s0)
  {
    hide StartingNext, HandshakeNext, StoppingNext, CallingNext, PluginNext;
    s := Take(s0, ShutdownReply(AppError), s0.(life := Busy(OpKill, Stopping(1, Waiting(1)))));
    s := GivesUp(s);
    assert s == GivenUp(s0);
  }

  lemma GivesUp(s0: State) returns (s: State)
    requires Reachable(s0) && s0.life == Busy(OpKill, Stopping(1, Waiting(1)))
    ensures Reachable(s) && s == GivenUp(s0)
  {
    hide StartingNext, HandshakeNext, UndoingNext, CallingNext, PluginNext;
    s := Take(s0, WaitStep(WaitFails), GivenUp(s0));
  }

  /** "A failed start leaves no token behind" fails if the process cannot even be launched. */
  lemma LaunchFailureLeavesToken(cfg: Config) returns (s: State)
    requires cfg.Valid()
    ensures Reachable(s) && s.life.Idle? && s.core.cmd == None && s.unreaped == {} && s.residue == {LaunchFailed}
    ensures s.results == [Returned(OpStart, Some(StartFailed))]
    ensures s.authFile == Some(TOKEN)
  {
    hide HandshakeNext, StoppingNext, CallingNext, PluginNext;
    NewIsReachable(cfg);
    Arms(Init(cfg, false, None));
    s := ArmedState(Init(cfg, false, None));
    s := Take(s, Launch(None),
              s.(residue := s.residue + {LaunchFailed}, life := Busy(OpStart, Attempt(1, Rolling(false)))));
    s := Take(s, RollbackStep,
              s.(core := Rollback(cfg, s.core, 1), life := Idle,
                 results := s.results + [Returned(OpStart, Some(StartFailed))]));
  }
}
