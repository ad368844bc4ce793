/** The bounded soak runner (apps/core/broker_shadow_soak.py, BrokerShadowSoakRunner), driving any
    session that answers the session protocol. What the session, the probes and the cycle hook do
    during a call is a parameter of the call. */
module SoakRunner {
  import opened Optional
  import S = ShadowSession

  datatype SoakState = Stopped | Running | Degraded | Completed | Failed | Exhausted

  datatype Reason =
    | CoreRssUnavailable | CoreRssLimit | ChildRssUnavailable | ChildRssLimit | LagLimit
    | RecoveryLimit | RecoveryFailed | SessionFailed | SessionStopped | SessionDegraded | NotReadyAtCompletion

  datatype Limits = Limits(
    maxCycles: nat, maxRecoveries: nat, maxCore: Option<nat>, maxChild: Option<nat>, maxLag: Option<nat>)

  /** A child that is not alive cannot report a reading: the sample's own constructor refuses one. */
  datatype Child = Gone | Alive(rss: Option<nat>)

  /** One reading of the probes; `peakLag` is the largest lag any series reports at that moment. */
  datatype Sample = Sample(core: Option<nat>, child: Child, peakLag: nat)

  /** What the runner can see of its session: its state and how many series its snapshot lists. */
  datatype View = View(state: S.ServiceState, series: nat)

  /** How a call into the session goes, and the session afterwards. */
  datatype Reply = Reply(raises: bool, ready: bool, after: View)

  datatype Runner = Runner(
    state: SoakState, reason: Option<Reason>, cycles: nat, attempts: nat, failures: nat, recoveries: nat,
    latest: Option<Sample>, maxCore: Option<nat>, maxChild: Option<nat>, maxLag: nat, session: View)

  datatype Outcome = Returns | Raises(cause: Cause)

  datatype Cause = AlreadyStarted | SessionRaised | HookRaised | NoSeries

  datatype StartScript = StartScript(call: Reply, sample: Sample, shut: Reply)

  datatype CycleScript = CycleScript(
    start: StartScript, hook: Reply, first: Sample, firstShut: Reply,
    action: Reply, actionShut: Reply, second: Sample, secondShut: Reply)

  predicate Terminal(state: SoakState) {
    state in {Completed, Failed, Exhausted}
  }

  // ---------------------------------------------------------------- pieces of a cycle

  function Greater(best: Option<nat>, seen: Option<nat>): Option<nat> {
    if seen.None? then best
    else if best.Some? && best.value > seen.value then best else seen
  }

  function ChildRss(child: Child): Option<nat> {
    if child.Gone? then None else child.rss
  }

  /** `_sample_resources`: the maximum over "the best so far and the lag of every series" is asked of
      a single number when the snapshot lists no series, and raises. */
  function Sampled(r: Runner, sample: Sample): (Runner, Outcome) {
    var seen := r.(latest := Some(sample), maxCore := Greater(r.maxCore, sample.core),
                   maxChild := Greater(r.maxChild, ChildRss(sample.child)));
    if r.session.series == 0 then (seen, Raises(NoSeries))
    else (seen.(maxLag := if sample.peakLag > r.maxLag then sample.peakLag else r.maxLag), Returns)
  }

  function CoreReason(limit: Option<nat>, core: Option<nat>): Option<Reason> {
    if limit.None? then None
    else if core.None? then Some(CoreRssUnavailable)
    else if core.value > limit.value then Some(CoreRssLimit)
    else None
  }

  function ChildReason(limit: Option<nat>, child: Child): Option<Reason> {
    if limit.None? || child.Gone? then None
    else if child.rss.None? then Some(ChildRssUnavailable)
    else if child.rss.value > limit.value then Some(ChildRssLimit)
    else None
  }

  function LimitReason(limits: Limits, r: Runner): Option<Reason> {
    if r.latest.None? then None
    else
      var core := CoreReason(limits.maxCore, r.latest.value.core);
      var child := ChildReason(limits.maxChild, r.latest.value.child);
      if core.Some? then core
      else if child.Some? then child
      else if limits.maxLag.Some? && r.maxLag > limits.maxLag.value then Some(LagLimit)
      else None
  }

  /** `_fail` and `_exhaust`. */
  function Ended(r: Runner, state: SoakState, reason: Reason, shut: Reply): (Runner, Outcome) {
    (r.(state := state, reason := Some(reason), session := shut.after),
     if shut.raises then Raises(SessionRaised) else Returns)
  }

  function Action(limits: Limits, r: Runner, action: Reply, shut: Reply): (Runner, Outcome) {
    match r.session.state
    case Running =>
      (r.(attempts := r.attempts + 1, failures := if action.raises then r.failures + 1 else r.failures,
          session := action.after), Returns)
    case Recovering =>
      if r.recoveries >= limits.maxRecoveries then Ended(r, Failed, RecoveryLimit, shut)
      else
        var tried := r.(recoveries := r.recoveries + 1, session := action.after);
        if action.raises then Ended(tried, Failed, RecoveryFailed, shut) else (tried, Returns)
    case Failed => Ended(r, Failed, SessionFailed, shut)
    case Stopped => Ended(r, Failed, SessionStopped, shut)
    case Starting => (r, Returns)
  }

  function Derived(r: Runner): Runner {
    if r.state in {Failed, Exhausted} then r
    else if r.session.state == S.Running then r.(state := Running, reason := None)
    else r.(state := Degraded, reason := Some(SessionDegraded))
  }

  /** `start`: the first sample already counts against the limits. */
  function Started(limits: Limits, r: Runner, script: StartScript): (Runner, Outcome) {
    if r.state != Stopped then (r, Raises(AlreadyStarted))
    else if script.call.raises then (r.(session := script.call.after), Raises(SessionRaised))
    else
      var up := r.(session := script.call.after, state := if script.call.ready then Running else Degraded);
      var (seen, outcome) := Sampled(up, script.sample);
      if outcome.Raises? then (seen, outcome)
      else
        var reason := LimitReason(limits, seen);
        if reason.Some? then Ended(seen, Exhausted, reason.value, script.shut) else (seen, Returns)
  }

  function ActAndSettle(limits: Limits, r: Runner, script: CycleScript): (Runner, Outcome) {
    var (acted, outcome) := Action(limits, r, script.action, script.actionShut);
    if outcome.Raises? then (acted, outcome)
    else
      var (seen, outcome) := Sampled(acted, script.second);
      if outcome.Raises? then (seen, outcome)
      else
        var reason := LimitReason(limits, seen);
        if reason.Some? then Ended(seen, Exhausted, reason.value, script.secondShut) else (Derived(seen), Returns)
  }

  function CycleBody(limits: Limits, r: Runner, script: CycleScript): (Runner, Outcome) {
    var hooked := r.(session := script.hook.after);
    if script.hook.raises then (hooked, Raises(HookRaised))
    else
      var (seen, outcome) := Sampled(hooked.(cycles := r.cycles + 1), script.first);
      if outcome.Raises? then (seen, outcome)
      else
        var reason := LimitReason(limits, seen);
        if reason.Some? then Ended(seen, Exhausted, reason.value, script.firstShut)
        else ActAndSettle(limits, seen, script)
  }

  function RunCycle(limits: Limits, r: Runner, script: CycleScript): (Runner, Outcome) {
    var (begun, outcome) := if r.state == Stopped then Started(limits, r, script.start) else (r, Returns);
    if outcome.Raises? then (begun, outcome)
    else if Terminal(begun.state) then (begun, Returns)
    else CycleBody(limits, begun, script)
  }

  // ---------------------------------------------------------------- until complete

  /** Sampling touches neither state nor counters. */
  lemma SampledKeeps(r: Runner, sample: Sample)
    ensures var seen := Sampled(r, sample).0;
            seen == r.(latest := seen.latest, maxCore := seen.maxCore, maxChild := seen.maxChild, maxLag := seen.maxLag)
  {
  }

  lemma BodyAddsACycle(limits: Limits, r: Runner, script: CycleScript)
    ensures r.cycles <= CycleBody(limits, r, script).0.cycles <= r.cycles + 1
    ensures CycleBody(limits, r, script).1 == Returns ==> CycleBody(limits, r, script).0.cycles == r.cycles + 1
  {
  }

  lemma StartKeepsCounters(limits: Limits, r: Runner, script: StartScript)
    ensures var up := Started(limits, r, script).0;
            && up.cycles == r.cycles && up.attempts == r.attempts
            && up.failures == r.failures && up.recoveries == r.recoveries
  {
  }

  /** Every cycle that returns has counted itself or ended the runner. */
  lemma CycleProgresses(limits: Limits, r: Runner, script: CycleScript)
    ensures var (after, outcome) := RunCycle(limits, r, script);
            && r.cycles <= after.cycles <= r.cycles + 1
            && (outcome == Returns && !Terminal(r.state) ==> Terminal(after.state) || after.cycles == r.cycles + 1)
  {
    hide CycleBody, Started;
    StartKeepsCounters(limits, r, script.start);
    BodyAddsACycle(limits, Started(limits, r, script.start).0, script);
    BodyAddsACycle(limits, r, script);
  }

  /** The loop of `run_until_complete`; `script` gives the environment of each cycle by its number. */
  function Drive(limits: Limits, r: Runner, script: nat -> CycleScript): (Runner, Outcome)
    decreases if r.cycles < limits.maxCycles then limits.maxCycles - r.cycles else 0, if Terminal(r.state) then 0 else 1
  {
    if r.cycles >= limits.maxCycles || Terminal(r.state) then (r, Returns)
    else
      var (after, outcome) := RunCycle(limits, r, script(r.cycles));
      if outcome.Raises? then (after, outcome)
      else
        CycleProgresses(limits, r, script(r.cycles));
        if Terminal(after.state) then (after, Returns) else Drive(limits, after, script)
  }

  function Finished(r: Runner, shut: Reply): (Runner, Outcome) {
    if r.state !in {Running, Degraded} then (r, Returns)
    else if r.session.state == S.Running then (r.(state := Completed, reason := None), Returns)
    else Ended(r, Failed, NotReadyAtCompletion, shut)
  }

  function UntilComplete(limits: Limits, r: Runner, script: nat -> CycleScript, shut: Reply): (Runner, Outcome) {
    var (driven, outcome) := Drive(limits, r, script);
    if outcome.Raises? then (driven, outcome) else Finished(driven, shut)
  }

  function ShutDown(r: Runner, shut: Reply): (Runner, Outcome) {
    if r.state == Stopped then (r, Returns)
    else if shut.raises then (r.(session := shut.after), Raises(SessionRaised))
    else (r.(state := Stopped, reason := None, session := shut.after), Returns)
  }

  // ---------------------------------------------------------------- the runner object

  class BrokerShadowSoakRunner {
    const limits: Limits
    var state: SoakState
    var reason: Option<Reason>
    var cycles: nat
    var attempts: nat
    var failures: nat
    var recoveries: nat
    var latest: Option<Sample>
    var maxCore: Option<nat>
    var maxChild: Option<nat>
    var maxLag: nat
    var session: View

    function Value(): Runner
      reads this
    {
      Runner(state, reason, cycles, attempts, failures, recoveries, latest, maxCore, maxChild, maxLag, session)
    }

    constructor (limits: Limits, session: View)
      ensures Value() == NewRunner(session) && this.limits == limits
    {
      this.limits := limits;
      this.session := session;
      state, reason, cycles, attempts, failures, recoveries := Stopped, None, 0, 0, 0, 0;
      latest, maxCore, maxChild, maxLag := None, None, None, 0;
    }

    method SampleResources(sample: Sample) returns (outcome: Outcome)
      modifies this
      ensures (Value(), outcome) == Sampled(old(Value()), sample)
    {
      latest := Some(sample);
      if sample.core.Some? {
        maxCore := Some(Max(if maxCore.Some? then maxCore.value else 0, sample.core.value));
      }
      if sample.child.Alive? && sample.child.rss.Some? {
        maxChild := Some(Max(if maxChild.Some? then maxChild.value else 0, sample.child.rss.value));
      }
      if session.series == 0 {
        return Raises(NoSeries);
      }
      maxLag := Max(maxLag, sample.peakLag);
      return Returns;
    }

    method End(state: SoakState, reason: Reason, shut: Reply) returns (outcome: Outcome)
      modifies this
      ensures (Value(), outcome) == Ended(old(Value()), state, reason, shut)
    {
      this.reason := Some(reason);
      this.state := state;
      session := shut.after;
      return if shut.raises then Raises(SessionRaised) else Returns;
    }

    method SessionAction(action: Reply, shut: Reply) returns (outcome: Outcome)
      modifies this
      ensures (Value(), outcome) == Action(limits, old(Value()), action, shut)
    {
      if session.state == S.Running {
        attempts := attempts + 1;
        session := action.after;
        failures := if action.raises then failures + 1 else failures;
      } else if session.state == S.Recovering {
        if recoveries >= limits.maxRecoveries {
          outcome := End(Failed, RecoveryLimit, shut);
          return;
        }
        recoveries := recoveries + 1;
        session := action.after;
        if action.raises {
          outcome := End(Failed, RecoveryFailed, shut);
          return;
        }
      } else if session.state == S.Failed {
        outcome := End(Failed, SessionFailed, shut);
        return;
      } else if session.state == S.Stopped {
        outcome := End(Failed, SessionStopped, shut);
        return;
      }
      return Returns;
    }

    method Start(script: StartScript) returns (outcome: Outcome)
      modifies this
      ensures (Value(), outcome) == Started(limits, old(Value()), script)
    {
      if state != Stopped {
        return Raises(AlreadyStarted);
      }
      session := script.call.after;
      if script.call.raises {
        return Raises(SessionRaised);
      }
      state := if script.call.ready then Running else Degraded;
      outcome := SampleResources(script.sample);
      if outcome.Returns? {
        var over := LimitReason(limits, Value());
        if over.Some? {
          outcome := End(Exhausted, over.value, script.shut);
        }
      }
    }

    method Settle(script: CycleScript) returns (outcome: Outcome)
      modifies this
      ensures (Value(), outcome) == ActAndSettle(limits, old(Value()), script)
    {
      outcome := SessionAction(script.action, script.actionShut);
      if outcome.Raises? {
        return;
      }
      outcome := SampleResources(script.second);
      if outcome.Raises? {
        return;
      }
      var over := LimitReason(limits, Value());
      if over.Some? {
        outcome := End(Exhausted, over.value, script.secondShut);
      } else if state !in {Failed, Exhausted} {
        state := if session.state == S.Running then Running else Degraded;
        reason := if session.state == S.Running then None else Some(SessionDegraded);
      }
    }

    method Cycle(script: CycleScript) returns (outcome: Outcome)
      modifies this
      ensures (Value(), outcome) == RunCycle(limits, old(Value()), script)
    {
      hide LimitReason, Sampled, ActAndSettle, Started;
      if state == Stopped {
        outcome := Start(script.start);
        if outcome.Raises? {
          return;
        }
      }
      if Terminal(state) {
        return Returns;
      }
      session := script.hook.after;
      if script.hook.raises {
        return Raises(HookRaised);
      }
      cycles := cycles + 1;
      outcome := SampleResources(script.first);
      if outcome.Raises? {
        return;
      }
      var over := LimitReason(limits, Value());
      if over.Some? {
        outcome := End(Exhausted, over.value, script.firstShut);
      } else {
        outcome := Settle(script);
      }
    }

    method RunUntilComplete(script: nat -> CycleScript, shut: Reply) returns (outcome: Outcome)
      modifies this
      ensures (Value(), outcome) == UntilComplete(limits, old(Value()), script, shut)
    {
      hide RunCycle;
      outcome := Returns;
      ghost var all := Drive(limits, Value(), script);
      while outcome.Returns? && cycles < limits.maxCycles && !Terminal(state)
        invariant all == if outcome.Raises? then (Value(), outcome) else Drive(limits, Value(), script)
        decreases outcome.Returns?, if cycles < limits.maxCycles then limits.maxCycles - cycles else 0,
                  if Terminal(state) then 0 else 1
      {
        ghost var before := Value();
        outcome := Cycle(script(cycles));
        CycleProgresses(limits, before, script(before.cycles));
      }
      if outcome.Returns? && state in {Running, Degraded} {
        if session.state == S.Running {
          state, reason := Completed, None;
        } else {
          outcome := End(Failed, NotReadyAtCompletion, shut);
        }
      }
    }

    method Shutdown(shut: Reply) returns (outcome: Outcome)
      modifies this
      ensures (Value(), outcome) == ShutDown(old(Value()), shut)
    {
      if state != Stopped {
        session := shut.after;
        if shut.raises {
          return Raises(SessionRaised);
        }
        state, reason := Stopped, None;
      }
      return Returns;
    }
  }

  function NewRunner(session: View): Runner {
    Runner(Stopped, None, 0, 0, 0, 0, None, None, None, 0, session)
  }

  function Max(a: nat, b: nat): nat {
    if a >= b then a else b
  }

  // ---------------------------------------------------------------- whole runs

  datatype Call =
    | CallStart(start: StartScript)
    | CallCycle(cycle: CycleScript)
    | CallComplete(script: nat -> CycleScript, last: Reply)
    | CallShutdown(shut: Reply)

  function Do(limits: Limits, r: Runner, c: Call): Runner {
    match c
    case CallStart(start) => Started(limits, r, start).0
    case CallCycle(cycle) => RunCycle(limits, r, cycle).0
    case CallComplete(script, last) => UntilComplete(limits, r, script, last).0
    case CallShutdown(shut) => ShutDown(r, shut).0
  }

  function Run(limits: Limits, r: Runner, calls: seq<Call>): Runner {
    if |calls| == 0 then r else Do(limits, Run(limits, r, calls[..|calls| - 1]), calls[|calls| - 1])
  }

  predicate Counts(limits: Limits, r: Runner) {
    && r.failures <= r.attempts
    && r.attempts + r.recoveries <= r.cycles
    && r.recoveries <= limits.maxRecoveries
  }

  lemma BodyKeepsCounts(limits: Limits, r: Runner, script: CycleScript)
    requires Counts(limits, r)
    ensures Counts(limits, CycleBody(limits, r, script).0)
  {
  }

  lemma CycleKeepsCounts(limits: Limits, r: Runner, script: CycleScript)
    requires Counts(limits, r)
    ensures Counts(limits, RunCycle(limits, r, script).0)
  {
    hide CycleBody, Started;
    StartKeepsCounters(limits, r, script.start);
    BodyKeepsCounts(limits, Started(limits, r, script.start).0, script);
    BodyKeepsCounts(limits, r, script);
  }

  lemma {:induction false} DriveKeepsCounts(limits: Limits, r: Runner, script: nat -> CycleScript)
    requires Counts(limits, r)
    ensures Counts(limits, Drive(limits, r, script).0)
    decreases if r.cycles < limits.maxCycles then limits.maxCycles - r.cycles else 0, if Terminal(r.state) then 0 else 1
  {
    hide RunCycle, Counts;
    if r.cycles < limits.maxCycles && !Terminal(r.state) {
      var (after, outcome) := RunCycle(limits, r, script(r.cycles));
      CycleKeepsCounts(limits, r, script(r.cycles));
      if outcome.Returns? {
        CycleProgresses(limits, r, script(r.cycles));
        if !Terminal(after.state) {
          DriveKeepsCounts(limits, after, script);
        }
      }
    }
  }

  /** In every run of every call: no more failed polls than polls, no more polls and recoveries than
      cycles, and never more recoveries than allowed. */
  lemma {:induction false} CountersAgree(limits: Limits, session: View, calls: seq<Call>)
    ensures Counts(limits, Run(limits, NewRunner(session), calls))
  {
    if |calls| > 0 {
      var before, c := calls[..|calls| - 1], calls[|calls| - 1];
      CountersAgree(limits, session, before);
      hide Run, RunCycle, Drive, Started;
      var r := Run(limits, NewRunner(session), before);
      assert Run(limits, NewRunner(session), calls) == Do(limits, r, c) by {
        RunUnfolds(limits, NewRunner(session), calls);
      }
      match c {
        case CallCycle(cycle) => CycleKeepsCounts(limits, r, cycle);
        case CallComplete(script, last) => DriveKeepsCounts(limits, r, script);
        case CallStart(start) => StartKeepsCounters(limits, r, start);
        case CallShutdown(_) =>
      }
    }
  }

  lemma RunUnfolds(limits: Limits, r: Runner, calls: seq<Call>)
    requires |calls| > 0
    ensures Run(limits, r, calls) == Do(limits, Run(limits, r, calls[..|calls| - 1]), calls[|calls| - 1])
  {
  }

  /** Completed, failed and exhausted are final: nothing but a shutdown changes anything. */
  lemma {:induction false} EndedStaysEnded(limits: Limits, r: Runner, calls: seq<Call>)
    requires Terminal(r.state)
    requires forall i :: 0 <= i < |calls| ==> !calls[i].CallShutdown?
    ensures Run(limits, r, calls) == r
  {
    if |calls| > 0 {
      EndedStaysEnded(limits, r, calls[..|calls| - 1]);
    }
  }

  // ---------------------------------------------------------------- limits and completion

  /** What a returning call leaves behind: exhausted exactly when the latest sample is over a limit,
      and then saying which; otherwise, unless it failed, running or degraded as its session is. */
  predicate Judged(limits: Limits, r: Runner) {
    && (r.state == Exhausted <==> LimitReason(limits, r).Some?)
    && (r.state == Exhausted ==> r.reason == LimitReason(limits, r))
    && (r.state == Running ==> r.session.state == S.Running && r.reason == None)
    && (r.state == Degraded ==> r.session.state != S.Running && r.reason == Some(SessionDegraded))
    && r.state in {Running, Degraded, Failed, Exhausted}
  }

  lemma BodyJudges(limits: Limits, r: Runner, script: CycleScript)
    requires r.state in {Running, Degraded} && CycleBody(limits, r, script).1 == Returns
    ensures Judged(limits, CycleBody(limits, r, script).0)
  {
  }

  lemma StartJudges(limits: Limits, r: Runner, script: StartScript)
    requires r.state == Stopped && Started(limits, r, script).1 == Returns
    ensures var up := Started(limits, r, script).0;
            && (up.state == Exhausted <==> LimitReason(limits, up).Some?)
            && (up.state == Exhausted ==> up.reason == LimitReason(limits, up))
            && up.state in {Running, Degraded, Exhausted}
  {
  }

  /** So does every cycle that returns to a runner not yet ended. */
  lemma ExhaustedExactlyOverLimit(limits: Limits, r: Runner, script: CycleScript)
    requires !Terminal(r.state) && RunCycle(limits, r, script).1 == Returns
    ensures Judged(limits, RunCycle(limits, r, script).0)
  {
    hide LimitReason, CycleBody, Started;
    if r.state == Stopped {
      StartJudges(limits, r, script.start);
      var up := Started(limits, r, script.start).0;
      if !Terminal(up.state) {
        BodyJudges(limits, up, script);
      }
    } else {
      BodyJudges(limits, r, script);
    }
  }

  lemma {:induction false} DriveEnds(limits: Limits, r: Runner, script: nat -> CycleScript)
    requires Drive(limits, r, script).1 == Returns
    ensures var after := Drive(limits, r, script).0;
            && (Terminal(after.state) || after.cycles >= limits.maxCycles)
            && (after.state == Completed ==> r.state == Completed)
            && after.cycles <= Max(r.cycles, limits.maxCycles)
    decreases if r.cycles < limits.maxCycles then limits.maxCycles - r.cycles else 0, if Terminal(r.state) then 0 else 1
  {
    if r.cycles < limits.maxCycles && !Terminal(r.state) {
      var (after, outcome) := RunCycle(limits, r, script(r.cycles));
      CycleProgresses(limits, r, script(r.cycles));
      ExhaustedExactlyOverLimit(limits, r, script(r.cycles));
      if !Terminal(after.state) {
        hide RunCycle;
        DriveEnds(limits, after, script);
      }
    }
  }

  /** `run_until_complete` always ends, within the cycle limit; when it reports completion it has run
      every cycle and the session is running. */
  lemma {:induction false} CompletionIsEarned(limits: Limits, r: Runner, script: nat -> CycleScript, shut: Reply)
    requires !Terminal(r.state) && UntilComplete(limits, r, script, shut).1 == Returns
    ensures var after := UntilComplete(limits, r, script, shut).0;
            && (Terminal(after.state) || (after.state == Stopped && r.cycles >= limits.maxCycles))
            && after.cycles <= Max(r.cycles, limits.maxCycles)
            && (after.state == Completed ==>
                  && after.cycles >= limits.maxCycles && after.session.state == S.Running && after.reason == None)
  {
    hide Drive;
    DriveEnds(limits, r, script);
    if Drive(limits, r, script).0.state == Stopped {
      DriveNeverStops(limits, r, script);
    }
  }

  lemma {:induction false} DriveNeverStops(limits: Limits, r: Runner, script: nat -> CycleScript)
    requires Drive(limits, r, script).1 == Returns && Drive(limits, r, script).0.state == Stopped
    ensures r.cycles >= limits.maxCycles
    decreases if r.cycles < limits.maxCycles then limits.maxCycles - r.cycles else 0, if Terminal(r.state) then 0 else 1
  {
    if r.cycles < limits.maxCycles && !Terminal(r.state) {
      var (after, outcome) := RunCycle(limits, r, script(r.cycles));
      CycleProgresses(limits, r, script(r.cycles));
      ExhaustedExactlyOverLimit(limits, r, script(r.cycles));
      hide RunCycle;
      if after.cycles < limits.maxCycles {
        DriveNeverStops(limits, after, script);
      }
    }
  }

  // ---------------------------------------------------------------- a cycle that fails

  predicate ActionFails(limits: Limits, r: Runner, action: Reply) {
    || r.session.state in {S.Failed, S.Stopped}
    || (r.session.state == S.Recovering && (r.recoveries >= limits.maxRecoveries || action.raises))
  }

  /** When the session action fails the runner, the failure is reported by returning exactly when the
      session, once shut down, still lists a series to take the lag of. */
  lemma FailureReturnsExactlyWithSeries(limits: Limits, r: Runner, script: CycleScript)
    requires ActionFails(limits, r, script.action) && !script.actionShut.raises && !script.secondShut.raises
    ensures var (after, outcome) := ActAndSettle(limits, r, script);
            && (outcome == Returns <==> script.actionShut.after.series > 0)
            && (outcome != Returns ==> outcome == Raises(NoSeries) && after.state == Failed)
            && (outcome == Returns ==> after.state in {Failed, Exhausted})
  {
  }

  /** Every shutdown within the cycle leaves a session without series. */
  predicate ShutdownsEmpty(script: CycleScript) {
    && script.start.shut.after.series == 0 && script.firstShut.after.series == 0
    && script.actionShut.after.series == 0 && script.secondShut.after.series == 0
  }

  /** The shipped session is of that kind. */
  lemma {:induction false} ShippedSessionEmpties(calls: seq<S.Call>, resourcesRaise: bool)
    ensures S.DoShutdown(S.Run(calls).session, resourcesRaise).0.runtimes == []
  {
    S.RunKeepsInv(calls);
    hide S.Run;
  }

  /** So with it no cycle ever returns the failure it ran into: a cycle that returns a failed runner
      was given a failed one. */
  lemma FailedCycleNeverReturns(limits: Limits, r: Runner, script: CycleScript)
    requires ShutdownsEmpty(script) && RunCycle(limits, r, script).1 == Returns
    ensures RunCycle(limits, r, script).0.state == Failed <==> r.state == Failed
  {
    hide LimitReason, Greater;
  }
}
