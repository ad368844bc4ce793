/** The time-window soak over a soak runner (apps/core/broker_shadow_soak.py,
    BrokerShadowTemporalSoakRunner): it runs cycles until the window has passed, keeps the latest
    samples, and judges the final snapshot against a plan. */
module TemporalSoak {
  import opened Optional
  import R = SoakRunner

  datatype PlanFields = PlanFields(
    duration: real, minimumCycles: nat, maximumCycles: nat, sampleEvery: nat, maxSamples: nat,
    maxPollFailures: nat, maxRecoveries: Option<nat>, noDegradedEnd: bool)

  /** The plans the constructor accepts. */
  type Plan = p: PlanFields |
      0.0 < p.duration && 0 < p.minimumCycles <= p.maximumCycles && 0 < p.sampleEvery && 0 < p.maxSamples
    witness PlanFields(1.0, 1, 1, 1, 1, 0, None, true)

  datatype Sample = Sample(index: nat, captured: real, snapshot: R.Runner)

  datatype Why = DurationNotReached | MinimumCyclesNotReached | RunnerFailed(reason: Option<R.Reason>)
               | FinalStateDegraded | PollFailureLimit | RecoveryLimit

  datatype Verdict = Passed | Rejected(why: Why)

  datatype Result =
    | Report(verdict: Verdict, started: real, ended: real, durationReached: bool, dropped: nat,
             final: R.Runner, samples: seq<Sample>)
    | Interrupted(cause: R.Cause)

  // ---------------------------------------------------------------- the verdict

  predicate LongEnough(plan: Plan, started: real, ended: real, final: R.Runner) {
    ended - started >= plan.duration && final.cycles >= plan.minimumCycles
  }

  predicate EndsWell(plan: Plan, final: R.Runner) {
    final.state !in {R.Failed, R.Exhausted} && (plan.noDegradedEnd ==> final.state != R.Degraded)
  }

  predicate MeetsPlan(plan: Plan, started: real, ended: real, final: R.Runner) {
    && LongEnough(plan, started, ended, final)
    && EndsWell(plan, final)
    && final.failures <= plan.maxPollFailures
    && (plan.maxRecoveries.Some? ==> final.recoveries <= plan.maxRecoveries.value)
  }

  /** Passing is meeting the whole plan; a rejection names the first clause not met. */
  method Evaluate(plan: Plan, started: real, ended: real, final: R.Runner) returns (verdict: Verdict)
    ensures verdict == Passed <==> MeetsPlan(plan, started, ended, final)
    ensures verdict == Rejected(DurationNotReached) <==> ended - started < plan.duration
    ensures verdict == Rejected(MinimumCyclesNotReached) <==>
              ended - started >= plan.duration && final.cycles < plan.minimumCycles
    ensures verdict == Rejected(RunnerFailed(final.reason)) <==>
              LongEnough(plan, started, ended, final) && final.state in {R.Failed, R.Exhausted}
    ensures verdict == Rejected(FinalStateDegraded) <==>
              LongEnough(plan, started, ended, final) && plan.noDegradedEnd && final.state == R.Degraded
    ensures verdict == Rejected(PollFailureLimit) <==>
              LongEnough(plan, started, ended, final) && EndsWell(plan, final) && final.failures > plan.maxPollFailures
    ensures verdict == Rejected(RecoveryLimit) <==>
              MeetsPlan(plan.(maxRecoveries := None), started, ended, final) && !MeetsPlan(plan, started, ended, final)
  {
    if ended - started < plan.duration {
      return Rejected(DurationNotReached);
    }
    if final.cycles < plan.minimumCycles {
      return Rejected(MinimumCyclesNotReached);
    }
    if final.state in {R.Failed, R.Exhausted} {
      return Rejected(RunnerFailed(final.reason));
    }
    if plan.noDegradedEnd && final.state == R.Degraded {
      return Rejected(FinalStateDegraded);
    }
    if final.failures > plan.maxPollFailures {
      return Rejected(PollFailureLimit);
    }
    if plan.maxRecoveries.Some? && final.recoveries > plan.maxRecoveries.value {
      return Rejected(RecoveryLimit);
    }
    return Passed;
  }

  // ---------------------------------------------------------------- samples

  function Last(taken: seq<Sample>, n: nat): seq<Sample> {
    if |taken| <= n then taken else taken[|taken| - n..]
  }

  function Snapshots(taken: seq<Sample>): seq<R.Runner> {
    seq(|taken|, i requires 0 <= i < |taken| => taken[i].snapshot)
  }

  /** The snapshots a sample is due for. */
  function Due(seen: seq<R.Runner>, every: nat): seq<R.Runner>
    requires every > 0
  {
    if seen == [] then []
    else
      var before, last := Due(seen[..|seen| - 1], every), seen[|seen| - 1];
      if last.cycles % every == 0 then before + [last] else before
  }

  /** The runner after a window's cycles so far, which began with `r`. */
  function Latest(r: R.Runner, seen: seq<R.Runner>): R.Runner {
    if seen == [] then r else seen[|seen| - 1]
  }

  /** A cycle of its own script takes `before` to `after` and returns. */
  predicate Cycles(limits: R.Limits, before: R.Runner, script: nat -> R.CycleScript, after: R.Runner) {
    R.RunCycle(limits, before, script(before.cycles)) == (after, R.Returns)
  }

  /** `seen` is what one cycle after the other returns, starting from `r`; only the last may end it. */
  predicate Trajectory(limits: R.Limits, r: R.Runner, script: nat -> R.CycleScript, seen: seq<R.Runner>) {
    seen != [] ==>
      var before := seen[..|seen| - 1];
      && Trajectory(limits, r, script, before)
      && (before != [] ==> !R.Terminal(Latest(r, before).state))
      && Cycles(limits, Latest(r, before), script, seen[|seen| - 1])
  }

  lemma LastOfAppend(taken: seq<Sample>, sample: Sample, n: nat)
    requires n > 0
    ensures Last(taken + [sample], n) ==
            (if |Last(taken, n)| >= n then Last(taken, n)[1..] else Last(taken, n)) + [sample]
  {
  }

  lemma SnapshotsOfAppend(taken: seq<Sample>, sample: Sample)
    ensures Snapshots(taken + [sample]) == Snapshots(taken) + [sample.snapshot]
  {
  }

  lemma TrajectoryExtends(
    limits: R.Limits, r: R.Runner, script: nat -> R.CycleScript, seen: seq<R.Runner>, next: R.Runner)
    requires Trajectory(limits, r, script, seen) && Cycles(limits, Latest(r, seen), script, next)
    requires seen != [] ==> !R.Terminal(Latest(r, seen).state)
    ensures Trajectory(limits, r, script, seen + [next])
  {
  }

  /** Each cycle of a window but an ending one adds one to the count, so there are no more of them
      than the count has room for. */
  lemma {:induction false} TrajectoryIsBounded(
    limits: R.Limits, r: R.Runner, script: nat -> R.CycleScript, seen: seq<R.Runner>)
    requires Trajectory(limits, r, script, seen)
    ensures seen != [] ==> r.cycles + |seen| - 1 <= Latest(r, seen).cycles <= r.cycles + |seen|
    ensures seen != [] && !R.Terminal(Latest(r, seen).state) ==> Latest(r, seen).cycles == r.cycles + |seen|
  {
    if seen != [] {
      var before := seen[..|seen| - 1];
      TrajectoryIsBounded(limits, r, script, before);
      hide R.RunCycle;
      R.CycleProgresses(limits, Latest(r, before), script(Latest(r, before).cycles));
      EndedCycleStays(limits, r, script(r.cycles));
    }
  }

  lemma EndedCycleStays(limits: R.Limits, r: R.Runner, script: R.CycleScript)
    ensures R.Terminal(r.state) ==> R.RunCycle(limits, r, script) == (r, R.Returns)
  {
  }

  class BrokerShadowTemporalSoakRunner {
    const plan: Plan
    const runner: R.BrokerShadowSoakRunner
    var samples: seq<Sample>
    var counter: nat
    var dropped: nat
    /** Every sample ever taken. */
    ghost var taken: seq<Sample>

    /** The samples kept are the latest of those taken, which are numbered from one without a gap;
        every other one is counted as dropped. */
    ghost predicate Valid()
      reads this
    {
      && counter == |taken|
      && (forall i :: 0 <= i < |taken| ==> taken[i].index == i + 1)
      && samples == Last(taken, plan.maxSamples)
      && dropped + |samples| == counter
    }

    constructor (plan: Plan, runner: R.BrokerShadowSoakRunner)
      ensures this.plan == plan && this.runner == runner && taken == [] && Valid()
    {
      this.plan := plan;
      this.runner := runner;
      samples, counter, dropped := [], 0, 0;
      taken := [];
    }

    method MaybeRecord(snapshot: R.Runner, force: bool, now: real) returns (recorded: bool)
      requires Valid()
      modifies this
      ensures Valid()
      ensures recorded == (force || snapshot.cycles % plan.sampleEvery == 0)
      ensures taken == old(taken) + if recorded then [Sample(old(counter) + 1, now, snapshot)] else []
    {
      if !force && snapshot.cycles % plan.sampleEvery != 0 {
        return false;
      }
      counter := counter + 1;
      var sample := Sample(counter, now, snapshot);
      LastOfAppend(taken, sample, plan.maxSamples);
      if |samples| >= plan.maxSamples {
        samples := samples[1..];
        dropped := dropped + 1;
      }
      samples := samples + [sample];
      taken := taken + [sample];
      return true;
    }

    /** One cycle and, if one is due, its sample. */
    method Step(script: nat -> R.CycleScript, now: real) returns (outcome: R.Outcome, recorded: bool)
      requires Valid()
      modifies this, runner
      ensures Valid()
      ensures (runner.Value(), outcome) == R.RunCycle(runner.limits, old(runner.Value()), script(old(runner.cycles)))
      ensures recorded == (outcome.Returns? && runner.cycles % plan.sampleEvery == 0)
      ensures taken == old(taken) + if recorded then [Sample(|old(taken)| + 1, now, runner.Value())] else []
    {
      hide R.RunCycle;
      recorded := false;
      outcome := runner.Cycle(script(runner.cycles));
      if outcome == R.Returns {
        recorded := MaybeRecord(runner.Value(), false, now);
      }
    }

    /** `clock` gives the readings of the clock in order, and `hookRaises(n)` tells whether the
        after-cycle hook raises after the n-th cycle. The cycles run are a trajectory of the runner that
        stops neither before its window is over nor after it, nor passes the plan's maximum. A report is
        about the time from the first reading to the one made right after the loop, and about the
        runner then; the samples taken are the due ones and the final one, each with the reading made for
        it; and the runner has been shut down. Without a report, a cycle, the hook or the shutdown raised. */
    method Run(script: nat -> R.CycleScript, clock: nat -> real, hookRaises: nat -> bool, shut: R.Reply)
      returns (result: Result, ghost seen: seq<R.Runner>)
      requires Valid()
      modifies this, runner
      ensures Valid()
      ensures Trajectory(runner.limits, old(runner.Value()), script, seen)
      ensures |seen| <= Room(plan.maximumCycles, old(runner.cycles))
      ensures forall n :: 0 <= n < |seen| ==> GoesOn(plan, clock, old(runner.Value()), seen[..n])
      ensures result.Report? ==>
                var r := old(runner.Value());
                var k := Readings(plan, r, seen) + FinalCheck(plan, r, seen);
                && !GoesOn(plan, clock, r, seen)
                && (forall n :: 0 <= n < |seen| ==> !hookRaises(n))
                && result.started == clock(0) && result.ended == clock(k)
                && result.final == Latest(r, seen)
                && (result.verdict == Passed <==> MeetsPlan(plan, clock(0), clock(k), result.final))
                && result.durationReached == (clock(k) - clock(0) >= plan.duration)
                && result.samples == samples && result.dropped == dropped
                && taken == Recorded(plan, clock, r, seen, old(taken)) +
                            [Sample(|Recorded(plan, clock, r, seen, old(taken))| + 1, clock(k + 1), result.final)]
                && (runner.Value(), R.Returns) == R.ShutDown(result.final, shut)
      ensures result.Interrupted? ==>
                var r := old(runner.Value());
                var last := Latest(r, seen);
                || (&& GoesOn(plan, clock, r, seen)
                    && (runner.Value(), R.Raises(result.cause)) == R.RunCycle(runner.limits, last, script(last.cycles)))
                || (&& !GoesOn(plan, clock, r, seen)
                    && (runner.Value(), R.Raises(result.cause)) == R.ShutDown(last, shut))
                || (result.cause == R.HookRaised && runner.Value() == last && seen != [] && hookRaises(|seen| - 1))
    {
      hide R.RunCycle, R.ShutDown, MeetsPlan, Trajectory, Recorded, Last, GoesOn, Readings, FinalCheck;
      var started := clock(0);
      var reading, cause;
      reading, cause, seen := RunWindow(started, script, clock, hookRaises);
      if cause.Some? {
        return Interrupted(cause.value), seen;
      }
      result := Finish(started, clock(reading), clock(reading + 1), shut);
    }

    /** The check before a cycle, which reads the clock only once the minimum is reached. */
    method WindowReached(started: real, clock: nat -> real, reading: nat) returns (reached: bool, next: nat)
      ensures reached <==> runner.cycles >= plan.minimumCycles && clock(reading) - started >= plan.duration
      ensures next == reading + Check(plan, runner.Value())
    {
      if runner.cycles < plan.minimumCycles {
        return false, reading;
      }
      return clock(reading) - started >= plan.duration, reading + 1;
    }

    /** The loop: `reading` is the next reading of the clock, `cause` why it was left by an exception. */
    method RunWindow(started: real, script: nat -> R.CycleScript, clock: nat -> real, hookRaises: nat -> bool)
      returns (reading: nat, cause: Option<R.Cause>, ghost seen: seq<R.Runner>)
      requires Valid() && started == clock(0)
      modifies this, runner
      ensures Valid()
      ensures Ran(plan, runner.limits, old(runner.Value()), script, clock, seen)
      ensures taken == Recorded(plan, clock, old(runner.Value()), seen, old(taken))
      ensures cause.None? ==>
                var r := old(runner.Value());
                && runner.Value() == Latest(r, seen)
                && (forall n :: 0 <= n < |seen| ==> !hookRaises(n))
                && !GoesOn(plan, clock, r, seen)
                && reading == Readings(plan, r, seen) + FinalCheck(plan, r, seen)
      ensures cause.Some? ==>
                var r := old(runner.Value());
                var last := Latest(r, seen);
                || (&& GoesOn(plan, clock, r, seen)
                    && (runner.Value(), R.Raises(cause.value)) == R.RunCycle(runner.limits, last, script(last.cycles)))
                || (cause.value == R.HookRaised && runner.Value() == last && seen != [] && hookRaises(|seen| - 1))
    {
      hide R.RunCycle, Cycles, Ran, Recorded, Last, R.Terminal, Readings, Room, Check;
      ghost var r := runner.Value();
      seen := [];
      NothingYet(runner.limits, r, script, plan, clock, taken);
      reading := 1;
      var ran, going := 0, true;
      while going
        invariant Valid() && ran == |seen|
        invariant forall n :: 0 <= n < |seen| ==> !hookRaises(n)
        invariant Ran(plan, runner.limits, r, script, clock, seen) && runner.Value() == Latest(r, seen)
        invariant going && seen != [] ==> !R.Terminal(runner.state)
        invariant taken == Recorded(plan, clock, r, seen, old(taken))
        invariant reading == Readings(plan, r, seen) + if going then 0 else FinalCheck(plan, r, seen)
        invariant !going ==> !GoesOn(plan, clock, r, seen)
        decreases going, Room(plan.maximumCycles, runner.cycles)
      {
        var reached, next := WindowReached(started, clock, reading);
        reading := next;
        if reached || runner.cycles >= plan.maximumCycles {
          going := false;
        } else {
          assert GoesOn(plan, clock, r, seen);
          hide GoesOn, FinalCheck;
          var outcome, recorded := Step(script, clock(reading));
          if outcome.Raises? {
            return reading, Some(outcome.cause), seen;
          }
          if recorded {
            reading := reading + 1;
          }
          WindowGrows(runner.limits, r, script, seen, runner.Value(), plan, clock, old(taken));
          seen := seen + [runner.Value()];
          ran := ran + 1;
          if hookRaises(ran - 1) {
            return reading, Some(R.HookRaised), seen;
          }
          going := !R.Terminal(runner.state);
        }
      }
      return reading, None, seen;
    }

    /** The final sample, the verdict and the shutdown. */
    method Finish(started: real, ended: real, now: real, shut: R.Reply) returns (result: Result)
      requires Valid()
      modifies this, runner
      ensures Valid()
      ensures result.Report? ==>
                && result.final == old(runner.Value()) && result.started == started && result.ended == ended
                && (result.verdict == Passed <==> MeetsPlan(plan, started, ended, result.final))
                && result.durationReached == (ended - started >= plan.duration)
                && result.samples == samples && result.dropped == dropped
                && taken == old(taken) + [Sample(|old(taken)| + 1, now, result.final)]
                && (runner.Value(), R.Returns) == R.ShutDown(result.final, shut)
      ensures result.Interrupted? ==> (runner.Value(), R.Raises(result.cause)) == R.ShutDown(old(runner.Value()), shut)
    {
      hide MeetsPlan;
      var final := runner.Value();
      var _ := MaybeRecord(final, true, now);
      var verdict := Evaluate(plan, started, ended, final);
      var outcome := runner.Shutdown(shut);
      if outcome.Raises? {
        return Interrupted(outcome.cause);
      }
      result := Report(verdict, started, ended, ended - started >= plan.duration, dropped, final, samples);
    }
  }

  /** How many cycles the maximum still allows. */
  function Room(maximum: nat, cycles: nat): nat {
    if cycles < maximum then maximum - cycles else 0
  }

  /** Whether the check before a cycle reads the clock: once the minimum is reached. */
  function Check(plan: Plan, r: R.Runner): nat {
    if r.cycles >= plan.minimumCycles then 1 else 0
  }

  /** Readings made by the time the window has run these cycles: one at the start, one for every check
      that reached the minimum, one for every sample due. */
  function Readings(plan: Plan, r: R.Runner, seen: seq<R.Runner>): nat {
    if seen == [] then 1
    else
      var before, last := seen[..|seen| - 1], seen[|seen| - 1];
      Readings(plan, r, before) + Check(plan, Latest(r, before)) + if last.cycles % plan.sampleEvery == 0 then 1 else 0
  }

  /** A window left by its loop's own condition has made one more check; one left by an ended runner has not. */
  function FinalCheck(plan: Plan, r: R.Runner, seen: seq<R.Runner>): nat {
    if seen != [] && R.Terminal(Latest(r, seen).state) then 0 else Check(plan, Latest(r, seen))
  }

  /** The window is not over after these cycles: the runner has not ended, the maximum is not reached, and
      if the minimum is, then the reading made to see found less than the duration passed. */
  predicate GoesOn(plan: Plan, clock: nat -> real, r: R.Runner, seen: seq<R.Runner>) {
    var last := Latest(r, seen);
    && (seen != [] ==> !R.Terminal(last.state))
    && last.cycles < plan.maximumCycles
    && (last.cycles >= plan.minimumCycles ==> clock(Readings(plan, r, seen)) - clock(0) < plan.duration)
  }

  /** A window that is over neither by its maximum nor by an ended runner made its last reading in the check
      that ended it, and that one found the duration passed. With a clock that never goes back the report
      then does not fall short of the duration or of the minimum. */
  lemma EarlyStopIsLongEnough(plan: Plan, clock: nat -> real, r: R.Runner, seen: seq<R.Runner>)
    requires !GoesOn(plan, clock, r, seen) && Latest(r, seen).cycles < plan.maximumCycles
    requires seen != [] ==> !R.Terminal(Latest(r, seen).state)
    ensures var k := Readings(plan, r, seen) + FinalCheck(plan, r, seen);
            && clock(k - 1) - clock(0) >= plan.duration
            && (clock(k - 1) <= clock(k) ==> LongEnough(plan, clock(0), clock(k), Latest(r, seen)))
  {
    hide Readings, R.Terminal;
  }

  /** What a window has run so far: a trajectory within the maximum that went on at each of its checks. */
  ghost predicate Ran(
    plan: Plan, limits: R.Limits, r: R.Runner, script: nat -> R.CycleScript, clock: nat -> real, seen: seq<R.Runner>)
  {
    && Trajectory(limits, r, script, seen)
    && |seen| <= Room(plan.maximumCycles, r.cycles)
    && forall n :: 0 <= n < |seen| ==> GoesOn(plan, clock, r, seen[..n])
  }

  /** All samples taken when the window has run these cycles: every due one, with the reading made for it. */
  function Recorded(
    plan: Plan, clock: nat -> real, r: R.Runner, seen: seq<R.Runner>, taken: seq<Sample>): seq<Sample>
  {
    if seen == [] then taken
    else
      var before, last := seen[..|seen| - 1], seen[|seen| - 1];
      var soFar := Recorded(plan, clock, r, before, taken);
      if last.cycles % plan.sampleEvery == 0
      then soFar + [Sample(|soFar| + 1, clock(Readings(plan, r, before) + Check(plan, Latest(r, before))), last)]
      else soFar
  }

  /** What is sampled of a window is every snapshot due. */
  lemma {:induction false} SamplesAreTheDueOnes(
    plan: Plan, clock: nat -> real, r: R.Runner, seen: seq<R.Runner>, taken: seq<Sample>)
    ensures Snapshots(Recorded(plan, clock, r, seen, taken)) == Snapshots(taken) + Due(seen, plan.sampleEvery)
  {
    if seen != [] {
      var before := seen[..|seen| - 1];
      SamplesAreTheDueOnes(plan, clock, r, before, taken);
      if seen[|seen| - 1].cycles % plan.sampleEvery == 0 {
        var all := Recorded(plan, clock, r, seen, taken);
        SnapshotsOfAppend(Recorded(plan, clock, r, before, taken), all[|all| - 1]);
      }
    }
  }

  lemma NothingYet(
    limits: R.Limits, r: R.Runner, script: nat -> R.CycleScript, plan: Plan, clock: nat -> real, taken: seq<Sample>)
    ensures Ran(plan, limits, r, script, clock, [])
    ensures Recorded(plan, clock, r, [], taken) == taken && Readings(plan, r, []) == 1
  {
  }

  lemma PrefixesStay(seen: seq<R.Runner>, next: R.Runner)
    ensures forall n :: 0 <= n < |seen| ==> (seen + [next])[..n] == seen[..n]
    ensures (seen + [next])[..|seen|] == seen
  {
  }

  lemma ReadingsOfAppend(plan: Plan, clock: nat -> real, r: R.Runner, seen: seq<R.Runner>, next: R.Runner,
                         taken: seq<Sample>)
    ensures Readings(plan, r, seen + [next]) ==
            Readings(plan, r, seen) + Check(plan, Latest(r, seen)) +
            if next.cycles % plan.sampleEvery == 0 then 1 else 0
    ensures var soFar := Recorded(plan, clock, r, seen, taken);
            Recorded(plan, clock, r, seen + [next], taken) == soFar +
            if next.cycles % plan.sampleEvery != 0 then []
            else [Sample(|soFar| + 1, clock(Readings(plan, r, seen) + Check(plan, Latest(r, seen))), next)]
  {
    assert (seen + [next])[..|seen|] == seen;
  }

  /** One more cycle of a window that is not over. */
  lemma WindowGrows(
    limits: R.Limits, r: R.Runner, script: nat -> R.CycleScript, seen: seq<R.Runner>, next: R.Runner, plan: Plan,
    clock: nat -> real, taken: seq<Sample>)
    requires Ran(plan, limits, r, script, clock, seen) && GoesOn(plan, clock, r, seen)
    requires R.RunCycle(limits, Latest(r, seen), script(Latest(r, seen).cycles)) == (next, R.Returns)
    ensures Ran(plan, limits, r, script, clock, seen + [next])
    ensures R.Terminal(next.state)
            || Room(plan.maximumCycles, next.cycles) < Room(plan.maximumCycles, Latest(r, seen).cycles)
    ensures Readings(plan, r, seen + [next]) ==
            Readings(plan, r, seen) + Check(plan, Latest(r, seen)) +
            if next.cycles % plan.sampleEvery == 0 then 1 else 0
    ensures var soFar := Recorded(plan, clock, r, seen, taken);
            Recorded(plan, clock, r, seen + [next], taken) == soFar +
            if next.cycles % plan.sampleEvery != 0 then []
            else [Sample(|soFar| + 1, clock(Readings(plan, r, seen) + Check(plan, Latest(r, seen))), next)]
  {
    TrajectoryIsBounded(limits, r, script, seen);
    ReadingsOfAppend(plan, clock, r, seen, next, taken);
    EndedCycleStays(limits, Latest(r, seen), script(Latest(r, seen).cycles));
    CycleIs(limits, Latest(r, seen), script, next);
    hide R.RunCycle, Cycles, Trajectory, Recorded, Readings, Check;
    R.CycleProgresses(limits, Latest(r, seen), script(Latest(r, seen).cycles));
    TrajectoryExtends(limits, r, script, seen, next);
    PrefixesStay(seen, next);
  }

  lemma CycleIs(limits: R.Limits, before: R.Runner, script: nat -> R.CycleScript, after: R.Runner)
    requires R.RunCycle(limits, before, script(before.cycles)) == (after, R.Returns)
    ensures Cycles(limits, before, script, after)
  {
  }

  // ---------------------------------------------------------------- a failing session is never reported

  /** With a session that loses its series when shut down, as the shipped one does, no window that
      runs into a failed runner comes to a report: the cycle that fails raises instead of returning. */
  lemma {:induction false} NoReportOfAFailure(
    limits: R.Limits, r: R.Runner, script: nat -> R.CycleScript, seen: seq<R.Runner>)
    requires Trajectory(limits, r, script, seen)
    requires forall n :: R.ShutdownsEmpty(script(n))
    ensures Latest(r, seen).state == R.Failed <==> r.state == R.Failed
  {
    if seen != [] {
      var before := seen[..|seen| - 1];
      NoReportOfAFailure(limits, r, script, before);
      hide R.RunCycle;
      R.FailedCycleNeverReturns(limits, Latest(r, before), script(Latest(r, before).cycles));
    }
  }
}
