/** The soak runner over the shipped session: every reply the runner gets is the one the session
    computes (apps/core/broker_shadow_soak.py over apps/core/broker_shadow_session.py). */
module SoakSystem {
  import opened Optional
  import S = ShadowSession
  import R = SoakRunner

  datatype System = System(runner: R.Runner, session: S.Session)

  /** What supervisor, runtimes, probes and the cycle hook do during one cycle. */
  datatype Env = Env(
    bringup: S.Bringup, startSample: R.Sample, startShutRaises: bool,
    hook: seq<S.Call>, hookRaises: bool, first: R.Sample, firstShutRaises: bool,
    timeout: real, worker: S.Worker, disconnectRaises: bool, recovery: S.Recovery,
    actionShutRaises: bool, second: R.Sample, secondShutRaises: bool)

  function ViewOf(s: S.Session): R.View {
    R.View(s.state, |s.runtimes|)
  }

  function ReplyOf(step: (S.Session, S.Reply)): R.Reply {
    R.Reply(step.1.Raises?, step.1 == S.Answer(true), ViewOf(step.0))
  }

  function Calls(s: S.Session, calls: seq<S.Call>): S.Session {
    if calls == [] then s else S.Do(Calls(s, calls[..|calls| - 1]), calls[|calls| - 1]).0
  }

  // ---------------------------------------------------------------- the session through a cycle

  function Begun(sys: System, env: Env): S.Session {
    if sys.runner.state.Stopped? then S.DoStart(sys.session, env.bringup).0 else sys.session
  }

  function Hooked(sys: System, env: Env): S.Session {
    Calls(Begun(sys, env), env.hook)
  }

  /** The poll or the recovery; a recovery over the limit is not attempted. */
  function ActionStep(limits: R.Limits, sys: System, env: Env): (S.Session, S.Reply) {
    var s := Hooked(sys, env);
    if s.state == S.Running then S.DoPoll(s, env.timeout, env.worker, env.disconnectRaises)
    else if s.state == S.Recovering && sys.runner.recoveries < limits.maxRecoveries then S.DoRecover(s, env.recovery)
    else (s, S.Nothing)
  }

  predicate Fails(limits: R.Limits, sys: System, env: Env) {
    R.ActionFails(limits, sys.runner.(session := ViewOf(Hooked(sys, env))), ReplyOf(ActionStep(limits, sys, env)))
  }

  function AfterAction(limits: R.Limits, sys: System, env: Env): S.Session {
    var acted := ActionStep(limits, sys, env).0;
    if Fails(limits, sys, env) then S.DoShutdown(acted, env.actionShutRaises).0 else acted
  }

  function ScriptOf(limits: R.Limits, sys: System, env: Env): R.CycleScript {
    var begun, hooked := Begun(sys, env), Hooked(sys, env);
    R.CycleScript(
      R.StartScript(ReplyOf(S.DoStart(sys.session, env.bringup)), env.startSample,
                    ReplyOf(S.DoShutdown(S.DoStart(sys.session, env.bringup).0, env.startShutRaises))),
      R.Reply(env.hookRaises, false, ViewOf(hooked)),
      env.first, ReplyOf(S.DoShutdown(hooked, env.firstShutRaises)),
      ReplyOf(ActionStep(limits, sys, env)),
      ReplyOf(S.DoShutdown(ActionStep(limits, sys, env).0, env.actionShutRaises)),
      env.second, ReplyOf(S.DoShutdown(AfterAction(limits, sys, env), env.secondShutRaises)))
  }

  function SettledSession(limits: R.Limits, r: R.Runner, sys: System, env: Env): S.Session {
    var script, s := ScriptOf(limits, sys, env), AfterAction(limits, sys, env);
    var (acted, outcome) := R.Action(limits, r, script.action, script.actionShut);
    if outcome.Raises? then s
    else
      var (seen, outcome) := R.Sampled(acted, script.second);
      if outcome.Returns? && R.LimitReason(limits, seen).Some? then S.DoShutdown(s, env.secondShutRaises).0 else s
  }

  function BodySession(limits: R.Limits, r: R.Runner, sys: System, env: Env): S.Session {
    var s := Hooked(sys, env);
    var (seen, outcome) := R.Sampled(r.(session := ViewOf(s), cycles := r.cycles + 1), env.first);
    if env.hookRaises || outcome.Raises? then s
    else if R.LimitReason(limits, seen).Some? then S.DoShutdown(s, env.firstShutRaises).0
    else SettledSession(limits, seen, sys, env)
  }

  function SessionAfter(limits: R.Limits, sys: System, env: Env): S.Session {
    if sys.runner.state.Stopped? then
      var (up, outcome) := R.Started(limits, sys.runner, ScriptOf(limits, sys, env).start);
      if R.Terminal(up.state) then S.DoShutdown(Begun(sys, env), env.startShutRaises).0
      else if outcome.Raises? then Begun(sys, env)
      else BodySession(limits, up, sys, env)
    else if R.Terminal(sys.runner.state) then sys.session
    else BodySession(limits, sys.runner, sys, env)
  }

  // ---------------------------------------------------------------- whole runs

  function RunOneCycle(limits: R.Limits, sys: System, env: Env): (System, R.Outcome) {
    var (runner, outcome) := R.RunCycle(limits, sys.runner, ScriptOf(limits, sys, env));
    (System(runner, SessionAfter(limits, sys, env)), outcome)
  }

  function StartAlone(limits: R.Limits, sys: System, env: Env): System {
    var up := R.Started(limits, sys.runner, ScriptOf(limits, sys, env).start).0;
    System(up, if !sys.runner.state.Stopped? then sys.session
               else if R.Terminal(up.state) then S.DoShutdown(Begun(sys, env), env.startShutRaises).0
               else Begun(sys, env))
  }

  /** The loop of `run_until_complete`; `envs` gives the environment of each cycle by its number. */
  function Drive(limits: R.Limits, sys: System, envs: nat -> Env): (System, R.Outcome)
    decreases if sys.runner.cycles < limits.maxCycles then limits.maxCycles - sys.runner.cycles else 0,
              if R.Terminal(sys.runner.state) then 0 else 1
  {
    var r := sys.runner;
    if r.cycles >= limits.maxCycles || R.Terminal(r.state) then (sys, R.Returns)
    else
      var (after, outcome) := RunOneCycle(limits, sys, envs(r.cycles));
      if outcome.Raises? then (after, outcome)
      else
        R.CycleProgresses(limits, r, ScriptOf(limits, sys, envs(r.cycles)));
        if R.Terminal(after.runner.state) then (after, R.Returns) else Drive(limits, after, envs)
  }

  function UntilComplete(limits: R.Limits, sys: System, envs: nat -> Env, shutRaises: bool): (System, R.Outcome) {
    var (driven, outcome) := Drive(limits, sys, envs);
    if outcome.Raises? then (driven, outcome)
    else
      var shut := S.DoShutdown(driven.session, shutRaises);
      var (runner, outcome) := R.Finished(driven.runner, ReplyOf(shut));
      var unready := driven.runner.state in {R.Running, R.Degraded} && driven.runner.session.state != S.Running;
      (System(runner, if unready then shut.0 else driven.session), outcome)
  }

  datatype Step =
    | Start(env: Env)
    | Cycle(env: Env)
    | Complete(envs: nat -> Env, shutRaises: bool)
    | Shutdown(raises: bool)
    | Session(call: S.Call)     // the owner uses the session directly

  const INITIAL := System(R.NewRunner(ViewOf(S.NEW)), S.NEW)

  function Next(limits: R.Limits, sys: System, step: Step): System {
    match step
    case Start(env) => StartAlone(limits, sys, env)
    case Cycle(env) => RunOneCycle(limits, sys, env).0
    case Complete(envs, shutRaises) => UntilComplete(limits, sys, envs, shutRaises).0
    case Shutdown(raises) =>
      var reply := S.DoShutdown(sys.session, raises);
      System(R.ShutDown(sys.runner, ReplyOf(reply)).0, if sys.runner.state.Stopped? then sys.session else reply.0)
    case Session(call) =>
      var s := S.Do(sys.session, call).0;
      System(sys.runner.(session := ViewOf(s)), s)
  }

  function Run(limits: R.Limits, steps: seq<Step>): System {
    if |steps| == 0 then INITIAL else Next(limits, Run(limits, steps[..|steps| - 1]), steps[|steps| - 1])
  }

  /** A stopped session has no runtimes. */
  predicate Emptied(s: S.Session) {
    s.state == S.Stopped ==> s.runtimes == []
  }

  /** The runner sees the session as it is. */
  predicate Inv(sys: System) {
    sys.runner.session == ViewOf(sys.session) && Emptied(sys.session)
  }

  lemma DoKeepsEmptied(s: S.Session, c: S.Call)
    requires Emptied(s)
    ensures Emptied(S.Do(s, c).0)
  {
    hide S.FreshRuntimes;
  }

  lemma ShutdownEmpties(s: S.Session, raises: bool)
    requires Emptied(s)
    ensures S.DoShutdown(s, raises).0.runtimes == []
  {
  }

  lemma {:induction false} CallsKeepEmptied(s: S.Session, calls: seq<S.Call>)
    requires Emptied(s)
    ensures Emptied(Calls(s, calls))
  {
    hide Emptied, S.Do;
    if calls != [] {
      CallsKeepEmptied(s, calls[..|calls| - 1]);
      DoKeepsEmptied(Calls(s, calls[..|calls| - 1]), calls[|calls| - 1]);
    }
  }

  lemma PhasesKeepEmptied(limits: R.Limits, sys: System, env: Env)
    requires Emptied(sys.session)
    ensures Emptied(S.DoStart(sys.session, env.bringup).0) && Emptied(Hooked(sys, env))
    ensures Emptied(ActionStep(limits, sys, env).0) && Emptied(AfterAction(limits, sys, env))
  {
    DoKeepsEmptied(sys.session, S.Start(env.bringup));
    CallsKeepEmptied(Begun(sys, env), env.hook);
    var s := Hooked(sys, env);
    DoKeepsEmptied(s, S.Poll(env.timeout, env.worker, env.disconnectRaises));
    DoKeepsEmptied(s, S.Recover(env.recovery));
    DoKeepsEmptied(ActionStep(limits, sys, env).0, S.Shutdown(env.actionShutRaises));
    hide Emptied, S.DoStart, S.DoPoll, S.DoRecover, S.DoShutdown, Hooked, Fails;
  }

  lemma ScriptEmpties(limits: R.Limits, sys: System, env: Env)
    requires Emptied(sys.session)
    ensures R.ShutdownsEmpty(ScriptOf(limits, sys, env))
  {
    PhasesKeepEmptied(limits, sys, env);
    ShutdownEmpties(S.DoStart(sys.session, env.bringup).0, env.startShutRaises);
    ShutdownEmpties(Hooked(sys, env), env.firstShutRaises);
    ShutdownEmpties(ActionStep(limits, sys, env).0, env.actionShutRaises);
    ShutdownEmpties(AfterAction(limits, sys, env), env.secondShutRaises);
    hide Emptied, S.DoStart, S.DoShutdown, Hooked, ActionStep, AfterAction;
  }

  // ---------------------------------------------------------------- the runner sees the session

  lemma SettledAgrees(limits: R.Limits, r: R.Runner, sys: System, env: Env)
    requires r.session == ViewOf(Hooked(sys, env)) && r.recoveries == sys.runner.recoveries
    ensures R.ActAndSettle(limits, r, ScriptOf(limits, sys, env)).0.session
            == ViewOf(SettledSession(limits, r, sys, env))
  {
    hide S.DoPoll, S.DoRecover, S.DoShutdown, S.DoStart, Hooked, Begun, R.LimitReason, R.Greater;
  }

  lemma ScriptBegins(limits: R.Limits, sys: System, env: Env)
    ensures var script := ScriptOf(limits, sys, env);
            && script.hook == R.Reply(env.hookRaises, false, ViewOf(Hooked(sys, env)))
            && script.first == env.first
            && script.firstShut.after == ViewOf(S.DoShutdown(Hooked(sys, env), env.firstShutRaises).0)
  {
    hide S.DoShutdown, S.DoStart, Hooked, ActionStep, AfterAction;
  }

  lemma BodyAgrees(limits: R.Limits, r: R.Runner, sys: System, env: Env)
    requires r.recoveries == sys.runner.recoveries
    ensures R.CycleBody(limits, r, ScriptOf(limits, sys, env)).0.session == ViewOf(BodySession(limits, r, sys, env))
  {
    hide ScriptOf, S.DoShutdown, Hooked, SettledSession, ViewOf, R.LimitReason, R.Sampled, R.ActAndSettle;
    var counted := r.(session := ViewOf(Hooked(sys, env)), cycles := r.cycles + 1);
    ScriptBegins(limits, sys, env);
    R.SampledKeeps(counted, env.first);
    SettledAgrees(limits, R.Sampled(counted, env.first).0, sys, env);
  }

  lemma CycleKeepsInv(limits: R.Limits, sys: System, env: Env)
    requires Inv(sys)
    ensures Inv(RunOneCycle(limits, sys, env).0)
  {
    CycleAgrees(limits, sys, env);
    CycleKeepsEmptied(limits, sys, env);
    hide Emptied, SessionAfter, ScriptOf, R.RunCycle;
  }

  lemma CycleAgrees(limits: R.Limits, sys: System, env: Env)
    requires Inv(sys)
    ensures R.RunCycle(limits, sys.runner, ScriptOf(limits, sys, env)).0.session
            == ViewOf(SessionAfter(limits, sys, env))
  {
    var script := ScriptOf(limits, sys, env);
    var up := R.Started(limits, sys.runner, script.start).0;
    R.StartKeepsCounters(limits, sys.runner, script.start);
    BodyAgrees(limits, up, sys, env);
    BodyAgrees(limits, sys.runner, sys, env);
    if sys.runner.state.Stopped? {
      StartAgrees(limits, sys, env);
    }
    hide R.Started, R.CycleBody, BodySession, ScriptOf, Begun, S.DoShutdown;
  }

  lemma StartAgrees(limits: R.Limits, sys: System, env: Env)
    requires sys.runner.state.Stopped?
    ensures var (up, outcome) := R.Started(limits, sys.runner, ScriptOf(limits, sys, env).start);
            && (R.Terminal(up.state) ==> up.session == ViewOf(S.DoShutdown(Begun(sys, env), env.startShutRaises).0))
            && (!R.Terminal(up.state) ==> up.session == ViewOf(Begun(sys, env)))
  {
    hide S.DoShutdown, S.DoStart, R.LimitReason, ActionStep, AfterAction, Hooked, R.Greater;
  }

  lemma CycleKeepsEmptied(limits: R.Limits, sys: System, env: Env)
    requires Inv(sys)
    ensures Emptied(SessionAfter(limits, sys, env))
  {
    PhasesKeepEmptied(limits, sys, env);
    ShutdownEmpties(S.DoStart(sys.session, env.bringup).0, env.startShutRaises);
    ShutdownEmpties(sys.session, env.startShutRaises);
    ShutdownEmpties(Hooked(sys, env), env.firstShutRaises);
    ShutdownEmpties(AfterAction(limits, sys, env), env.secondShutRaises);
    hide S.DoStart, S.DoShutdown, Hooked, ActionStep, AfterAction, ScriptOf;
    hide R.Started, R.Sampled, R.Action, R.LimitReason;
  }

  lemma StartKeepsInv(limits: R.Limits, sys: System, env: Env)
    requires Inv(sys)
    ensures Inv(StartAlone(limits, sys, env))
  {
    PhasesKeepEmptied(limits, sys, env);
    if sys.runner.state.Stopped? {
      StartAgrees(limits, sys, env);
      ShutdownEmpties(S.DoStart(sys.session, env.bringup).0, env.startShutRaises);
    }
    hide S.DoStart, S.DoShutdown, ScriptOf, R.LimitReason, R.Sampled;
  }

  lemma {:induction false} DriveKeepsInv(limits: R.Limits, sys: System, envs: nat -> Env)
    requires Inv(sys)
    ensures Inv(Drive(limits, sys, envs).0)
    decreases if sys.runner.cycles < limits.maxCycles then limits.maxCycles - sys.runner.cycles else 0,
              if R.Terminal(sys.runner.state) then 0 else 1
  {
    hide Inv, R.RunCycle, SessionAfter, ScriptOf;
    var r := sys.runner;
    if r.cycles < limits.maxCycles && !R.Terminal(r.state) {
      var (after, outcome) := RunOneCycle(limits, sys, envs(r.cycles));
      CycleKeepsInv(limits, sys, envs(r.cycles));
      R.CycleProgresses(limits, r, ScriptOf(limits, sys, envs(r.cycles)));
      if outcome.Returns? && !R.Terminal(after.runner.state) {
        DriveKeepsInv(limits, after, envs);
      }
    }
  }

  lemma CompleteKeepsInv(limits: R.Limits, sys: System, envs: nat -> Env, shutRaises: bool)
    requires Inv(sys)
    ensures Inv(UntilComplete(limits, sys, envs, shutRaises).0)
  {
    DriveKeepsInv(limits, sys, envs);
    hide Drive;
    ShutdownEmpties(Drive(limits, sys, envs).0.session, shutRaises);
    hide S.DoShutdown;
  }

  lemma {:induction false} RunKeepsInv(limits: R.Limits, steps: seq<Step>)
    ensures Inv(Run(limits, steps))
  {
    if |steps| > 0 {
      var sys, step := Run(limits, steps[..|steps| - 1]), steps[|steps| - 1];
      RunKeepsInv(limits, steps[..|steps| - 1]);
      match step
      case Start(env) => StartKeepsInv(limits, sys, env);
      case Cycle(env) => CycleKeepsInv(limits, sys, env);
      case Complete(envs, shutRaises) => CompleteKeepsInv(limits, sys, envs, shutRaises);
      case Shutdown(raises) => DoKeepsEmptied(sys.session, S.Shutdown(raises));
      case Session(call) => DoKeepsEmptied(sys.session, call);
    }
  }

  // ---------------------------------------------------------------- the loop is the runner's own

  lemma {:induction false} DriveAgrees(limits: R.Limits, r: R.Runner, a: nat -> R.CycleScript, b: nat -> R.CycleScript)
    requires forall n :: n >= r.cycles ==> a(n) == b(n)
    ensures R.Drive(limits, r, a) == R.Drive(limits, r, b)
    decreases if r.cycles < limits.maxCycles then limits.maxCycles - r.cycles else 0,
              if R.Terminal(r.state) then 0 else 1
  {
    hide R.RunCycle;
    if r.cycles < limits.maxCycles && !R.Terminal(r.state) {
      var (after, outcome) := R.RunCycle(limits, r, a(r.cycles));
      R.CycleProgresses(limits, r, a(r.cycles));
      if outcome.Returns? && !R.Terminal(after.state) {
        DriveAgrees(limits, after, a, b);
      }
    }
  }

  /** The composed loop is the runner's loop on the replies the session gives. */
  lemma {:induction false} DriveIsTheLoop(limits: R.Limits, sys: System, envs: nat -> Env)
    returns (script: nat -> R.CycleScript)
    ensures var (driven, outcome) := Drive(limits, sys, envs);
            R.Drive(limits, sys.runner, script) == (driven.runner, outcome)
    decreases if sys.runner.cycles < limits.maxCycles then limits.maxCycles - sys.runner.cycles else 0,
              if R.Terminal(sys.runner.state) then 0 else 1
  {
    hide R.RunCycle, SessionAfter, ScriptOf;
    var r := sys.runner;
    var first := ScriptOf(limits, sys, envs(r.cycles));
    script := (n: nat) => first;
    if r.cycles < limits.maxCycles && !R.Terminal(r.state) {
      var (after, outcome) := RunOneCycle(limits, sys, envs(r.cycles));
      R.CycleProgresses(limits, r, first);
      if outcome.Returns? && !R.Terminal(after.runner.state) {
        var rest := DriveIsTheLoop(limits, after, envs);
        script := (n: nat) => if n == r.cycles then first else rest(n);
        DriveAgrees(limits, after.runner, script, rest);
      }
    }
  }

  // ---------------------------------------------------------------- a failure is never returned

  /** In every run of the runner over the shipped session, a cycle that returns a failed runner was
      given a failed one: the failure a cycle runs into is never returned by it. */
  lemma {:induction false} NoCycleReturnsItsFailure(limits: R.Limits, steps: seq<Step>, env: Env)
    ensures var sys := Run(limits, steps);
            var (after, outcome) := R.RunCycle(limits, sys.runner, ScriptOf(limits, sys, env));
            outcome == R.Returns ==> (after.state == R.Failed <==> sys.runner.state == R.Failed)
  {
    RunKeepsInv(limits, steps);
    hide Run, ScriptOf, R.RunCycle, R.ShutdownsEmpty;
    var sys := Run(limits, steps);
    ScriptEmpties(limits, sys, env);
    if R.RunCycle(limits, sys.runner, ScriptOf(limits, sys, env)).1 == R.Returns {
      R.FailedCycleNeverReturns(limits, sys.runner, ScriptOf(limits, sys, env));
    }
  }

  /** It is raised: a started runner whose session action fails, with the samples inside their limits
      and a shutdown that goes through, ends up failed and the cycle raises for want of a series. */
  lemma {:induction false} FailingCycleRaises(limits: R.Limits, steps: seq<Step>, env: Env)
    requires var sys := Run(limits, steps);
             && sys.runner.state in {R.Running, R.Degraded} && Fails(limits, sys, env)
             && !env.hookRaises && !env.actionShutRaises && !env.secondShutRaises
             && Hooked(sys, env).runtimes != []
             && var counted := sys.runner.(session := ViewOf(Hooked(sys, env)), cycles := sys.runner.cycles + 1);
                R.LimitReason(limits, R.Sampled(counted, env.first).0).None?
    ensures var sys := Run(limits, steps);
            var (after, outcome) := R.RunCycle(limits, sys.runner, ScriptOf(limits, sys, env));
            outcome == R.Raises(R.NoSeries) && after.state == R.Failed
  {
    RunKeepsInv(limits, steps);
    hide Run;
    var sys := Run(limits, steps);
    ScriptEmpties(limits, sys, env);
    ShutdownReturns(limits, sys, env);
    var script := ScriptOf(limits, sys, env);
    var counted := sys.runner.(session := ViewOf(Hooked(sys, env)), cycles := sys.runner.cycles + 1);
    var seen := R.Sampled(counted, env.first).0;
    R.FailureReturnsExactlyWithSeries(limits, seen, script);
    hide S.DoShutdown, S.DoStart, Hooked, ActionStep, AfterAction, R.LimitReason, R.ActAndSettle, R.Greater;
  }

  // Such a run exists: one series, a cycle whose poll raises, and no recovery allowed.

  const NO_RECOVERY := R.Limits(10, 0, None, None, None)
  const QUIET := R.Sample(None, R.Gone, 0)
  const POLL_RAISES := Env(S.Up(true), QUIET, false, [], false, QUIET, false,
                           1.0, S.WorkerReady(true), false, S.StopRaises, false, QUIET, false)

  lemma RegistersOne() returns (sys: System)
    ensures sys == Run(NO_RECOVERY, [Session(S.Register("DERIV", "R_100", "DERIV", 1))])
    ensures sys == System(R.NewRunner(R.View(S.Stopped, 0)), S.NEW.(registered := ["R_100"]))
  {
    var step := Session(S.Register("DERIV", "R_100", "DERIV", 1));
    assert [step][..0] == [];
    assert Run(NO_RECOVERY, []) == INITIAL;
    sys := Next(NO_RECOVERY, INITIAL, step);
  }

  /** The cycle starts the session, polls, and is left degraded with a session to recover. */
  lemma PollRaises(sys: System)
    requires sys == System(R.NewRunner(R.View(S.Stopped, 0)), S.NEW.(registered := ["R_100"]))
    ensures var after := RunOneCycle(NO_RECOVERY, sys, POLL_RAISES);
            && after.1 == R.Returns && after.0.runner.state == R.Degraded && after.0.runner.recoveries == 0
            && after.0.session.state == S.Recovering && after.0.session.runtimes != []
  {
    var begun := S.DoStart(sys.session, S.Up(true)).0;
    assert begun.state == S.Running && |begun.runtimes| == 1;
    assert Hooked(sys, POLL_RAISES) == begun;
    var acted := S.DoPoll(begun, 1.0, S.WorkerReady(true), false);
    assert acted.0.state == S.Recovering && |acted.0.runtimes| == 1 && acted.1 == S.Raises(S.FromEnvironment);
    hide S.DoStart, S.DoPoll, S.DoShutdown;
  }

  lemma FailureHappens() returns (steps: seq<Step>)
    ensures var sys := Run(NO_RECOVERY, steps);
            var (after, outcome) := R.RunCycle(NO_RECOVERY, sys.runner, ScriptOf(NO_RECOVERY, sys, POLL_RAISES));
            sys.runner.state == R.Degraded && outcome == R.Raises(R.NoSeries) && after.state == R.Failed
  {
    var first := Session(S.Register("DERIV", "R_100", "DERIV", 1));
    var registered := RegistersOne();
    PollRaises(registered);
    steps := [first] + [Cycle(POLL_RAISES)];
    assert steps[..1] == [first];
    hide RunOneCycle, ScriptOf, R.RunCycle;
    FailingCycleRaises(NO_RECOVERY, steps, POLL_RAISES);
  }

  lemma ShutdownReturns(limits: R.Limits, sys: System, env: Env)
    ensures !env.actionShutRaises ==> !ScriptOf(limits, sys, env).actionShut.raises
    ensures !env.secondShutRaises ==> !ScriptOf(limits, sys, env).secondShut.raises
  {
    hide ActionStep, AfterAction, Hooked, S.DoStart;
  }

  /** `run_until_complete` returns a failed runner it was not given only for a session that is not ready
      at completion: any other failure has raised. */
  lemma {:induction false} CompletionFailsOnlyUnready(
    limits: R.Limits, steps: seq<Step>, envs: nat -> Env, shutRaises: bool)
    ensures var sys := Run(limits, steps);
            var (after, outcome) := UntilComplete(limits, sys, envs, shutRaises);
            outcome == R.Returns && after.runner.state == R.Failed && sys.runner.state != R.Failed ==>
              after.runner.reason == Some(R.NotReadyAtCompletion)
  {
    RunKeepsInv(limits, steps);
    hide Run, Drive;
    var sys := Run(limits, steps);
    if Drive(limits, sys, envs).1 == R.Returns {
      DriveKeepsFailure(limits, sys, envs);
    }
  }

  lemma {:induction false} DriveKeepsFailure(limits: R.Limits, sys: System, envs: nat -> Env)
    requires Inv(sys) && Drive(limits, sys, envs).1 == R.Returns
    ensures Drive(limits, sys, envs).0.runner.state == R.Failed <==> sys.runner.state == R.Failed
    decreases if sys.runner.cycles < limits.maxCycles then limits.maxCycles - sys.runner.cycles else 0,
              if R.Terminal(sys.runner.state) then 0 else 1
  {
    hide R.RunCycle, SessionAfter, ScriptOf, R.ShutdownsEmpty;
    var r := sys.runner;
    if r.cycles < limits.maxCycles && !R.Terminal(r.state) {
      var env := envs(r.cycles);
      var (after, outcome) := RunOneCycle(limits, sys, env);
      CycleKeepsInv(limits, sys, env);
      ScriptEmpties(limits, sys, env);
      R.CycleProgresses(limits, r, ScriptOf(limits, sys, env));
      R.FailedCycleNeverReturns(limits, r, ScriptOf(limits, sys, env));
      if !R.Terminal(after.runner.state) {
        DriveKeepsFailure(limits, after, envs);
      }
    }
  }

  /** Cycles one after the other, as a time window runs them, for as long as they return. */
  function Window(limits: R.Limits, sys: System, envs: seq<Env>): Option<System> {
    if envs == [] then Some(sys)
    else
      var before, env := Window(limits, sys, envs[..|envs| - 1]), envs[|envs| - 1];
      if before.None? then None
      else if R.RunCycle(limits, before.value.runner, ScriptOf(limits, before.value, env)).1.Raises? then None
      else Some(RunOneCycle(limits, before.value, env).0)
  }

  /** So no window over the shipped session comes to its end with a failed runner it did not begin with,
      and none reports a failure. */
  lemma {:induction false} NoWindowReportsAFailure(limits: R.Limits, steps: seq<Step>, envs: seq<Env>)
    ensures var sys := Run(limits, steps);
            var end := Window(limits, sys, envs);
            end.Some? ==> Inv(end.value) && (end.value.runner.state == R.Failed <==> sys.runner.state == R.Failed)
  {
    RunKeepsInv(limits, steps);
    hide Run;
    WindowKeepsFailure(limits, Run(limits, steps), envs);
  }

  lemma {:induction false} WindowKeepsFailure(limits: R.Limits, sys: System, envs: seq<Env>)
    requires Inv(sys)
    ensures var end := Window(limits, sys, envs);
            end.Some? ==> Inv(end.value) && (end.value.runner.state == R.Failed <==> sys.runner.state == R.Failed)
  {
    hide ScriptOf, R.RunCycle, SessionAfter, R.ShutdownsEmpty;
    if envs != [] {
      var before, env := Window(limits, sys, envs[..|envs| - 1]), envs[|envs| - 1];
      WindowKeepsFailure(limits, sys, envs[..|envs| - 1]);
      if before.Some? {
        CycleKeepsInv(limits, before.value, env);
        ScriptEmpties(limits, before.value, env);
        if R.RunCycle(limits, before.value.runner, ScriptOf(limits, before.value, env)).1 == R.Returns {
          R.FailedCycleNeverReturns(limits, before.value.runner, ScriptOf(limits, before.value, env));
        }
      }
    }
  }
}
