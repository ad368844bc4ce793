/** What the soak runner makes of its resource readings (apps/core/broker_shadow_soak.py): the maxima it
    reports are those of every reading taken in a run, and each limit speaks up exactly when it is passed. */
module SoakReadings {
  import opened Optional
  import S = ShadowSession
  import opened SoakRunner

  /** A reading of the probes; its lag counts only if the session listed a series then. */
  datatype Reading = Reading(sample: Sample, listed: bool)

  // ---------------------------------------------------------------- limits

  predicate CoreOver(limits: Limits, sample: Sample) {
    limits.maxCore.Some? && (sample.core.None? || sample.core.value > limits.maxCore.value)
  }

  predicate ChildOver(limits: Limits, sample: Sample) {
    && limits.maxChild.Some? && sample.child.Alive?
    && (sample.child.rss.None? || sample.child.rss.value > limits.maxChild.value)
  }

  /** Every reason, exactly when it is given: the core before the child before the lag; a limited reading
      that is missing counts as over, except that of a child that is not alive. */
  lemma LimitsSpeakExactly(limits: Limits, r: Runner, sample: Sample)
    requires r.latest == Some(sample)
    ensures var reason := LimitReason(limits, r);
            && (reason == Some(CoreRssUnavailable) <==> limits.maxCore.Some? && sample.core.None?)
            && (reason == Some(CoreRssLimit) <==>
                  limits.maxCore.Some? && sample.core.Some? && sample.core.value > limits.maxCore.value)
            && (reason == Some(ChildRssUnavailable) <==>
                  !CoreOver(limits, sample) && limits.maxChild.Some? && sample.child == Alive(None))
            && (reason == Some(ChildRssLimit) <==>
                  && !CoreOver(limits, sample) && limits.maxChild.Some? && sample.child.Alive?
                  && sample.child.rss.Some? && sample.child.rss.value > limits.maxChild.value)
            && (reason == Some(LagLimit) <==>
                  && !CoreOver(limits, sample) && !ChildOver(limits, sample)
                  && limits.maxLag.Some? && r.maxLag > limits.maxLag.value)
            && (reason == None <==>
                  && !CoreOver(limits, sample) && !ChildOver(limits, sample)
                  && (limits.maxLag.Some? ==> r.maxLag <= limits.maxLag.value))
  {
  }

  /** What an action counts and when it fails the runner, with the reason. */
  lemma ActionExactly(limits: Limits, r: Runner, action: Reply, shut: Reply)
    requires r.state in {Running, Degraded}
    ensures var after := Action(limits, r, action, shut).0;
            var polls, repairs := r.session.state == S.Running, r.session.state == S.Recovering;
            && after.attempts - r.attempts == (if polls then 1 else 0)
            && after.failures - r.failures == (if polls && action.raises then 1 else 0)
            && after.recoveries - r.recoveries == (if repairs && r.recoveries < limits.maxRecoveries then 1 else 0)
            && (after.state == Failed <==> ActionFails(limits, r, action))
            && (after.state != Failed ==> after.state == r.state && after.reason == r.reason)
            && (after.state == Failed ==>
                  && (after.reason == Some(SessionFailed) <==> r.session.state == S.Failed)
                  && (after.reason == Some(SessionStopped) <==> r.session.state == S.Stopped)
                  && (after.reason == Some(RecoveryLimit) <==> repairs && r.recoveries >= limits.maxRecoveries)
                  && (after.reason == Some(RecoveryFailed) <==>
                        repairs && r.recoveries < limits.maxRecoveries && action.raises))
            && (after.cycles, after.latest, after.maxCore, after.maxChild, after.maxLag)
               == (r.cycles, r.latest, r.maxCore, r.maxChild, r.maxLag)
  {
  }

  // ---------------------------------------------------------------- beginning and ending

  /** A start raises for a runner already started, a raising session or one without series; otherwise the
      runner is exhausted if its first sample is over a limit, and as ready as its session if not. */
  lemma StartsExactly(limits: Limits, r: Runner, script: StartScript)
    ensures var (after, outcome) := Started(limits, r, script);
            && (outcome == Raises(AlreadyStarted) <==> r.state != Stopped)
            && (outcome == Raises(NoSeries) <==>
                  r.state == Stopped && !script.call.raises && script.call.after.series == 0)
            && (r.state != Stopped || script.call.raises ==> after.state == r.state)
            && (outcome == Returns ==>
                  after.state == (if LimitReason(limits, after).Some? then Exhausted
                                  else if script.call.ready then Running else Degraded))
  {
  }

  /** Completion needs a running session; without one the runner fails for not being ready. An ended runner
      keeps its ending. */
  lemma FinishesExactly(r: Runner, shut: Reply)
    ensures var after := Finished(r, shut).0;
            var open := r.state in {Running, Degraded};
            && (after.state == Completed <==> r.state == Completed || (open && r.session.state == S.Running))
            && (open && r.session.state != S.Running ==>
                  after.state == Failed && after.reason == Some(NotReadyAtCompletion))
            && (open && r.session.state == S.Running ==> after.reason == None && after.session == r.session)
            && (!open ==> after == r)
            && FiguresOf(after) == FiguresOf(r) && after.cycles == r.cycles
  {
  }

  /** A shutdown stops every runner whose session lets it, and keeps what was counted and measured. */
  lemma ShutsDownExactly(r: Runner, shut: Reply)
    ensures var (after, outcome) := ShutDown(r, shut);
            && (after.state == Stopped <==> r.state == Stopped || !shut.raises)
            && (outcome.Raises? <==> r.state != Stopped && shut.raises)
            && (outcome.Raises? ==> after.state == r.state && after.reason == r.reason)
            && (r.state != Stopped && !shut.raises ==> after.reason == None)
            && FiguresOf(after) == FiguresOf(r)
            && (after.cycles, after.attempts, after.failures, after.recoveries)
               == (r.cycles, r.attempts, r.failures, r.recoveries)
  {
  }

  // ---------------------------------------------------------------- the readings of a call

  function StartReadings(r: Runner, script: StartScript): seq<Reading> {
    if r.state != Stopped || script.call.raises then [] else [Reading(script.sample, script.call.after.series > 0)]
  }

  function ActionReadings(limits: Limits, r: Runner, script: CycleScript): seq<Reading> {
    var (acted, outcome) := Action(limits, r, script.action, script.actionShut);
    if outcome.Raises? then [] else [Reading(script.second, acted.session.series > 0)]
  }

  function BodyReadings(limits: Limits, r: Runner, script: CycleScript): seq<Reading> {
    if script.hook.raises then []
    else
      var (seen, outcome) := Sampled(r.(session := script.hook.after, cycles := r.cycles + 1), script.first);
      [Reading(script.first, script.hook.after.series > 0)] +
      if outcome.Raises? || LimitReason(limits, seen).Some? then [] else ActionReadings(limits, seen, script)
  }

  function CycleReadings(limits: Limits, r: Runner, script: CycleScript): seq<Reading> {
    if r.state == Stopped then
      var (begun, outcome) := Started(limits, r, script.start);
      StartReadings(r, script.start) +
      if outcome.Raises? || Terminal(begun.state) then [] else BodyReadings(limits, begun, script)
    else if Terminal(r.state) then []
    else BodyReadings(limits, r, script)
  }

  function DriveReadings(limits: Limits, r: Runner, script: nat -> CycleScript): seq<Reading>
    decreases if r.cycles < limits.maxCycles then limits.maxCycles - r.cycles else 0, if Terminal(r.state) then 0 else 1
  {
    if r.cycles >= limits.maxCycles || Terminal(r.state) then []
    else
      var (after, outcome) := RunCycle(limits, r, script(r.cycles));
      CycleProgresses(limits, r, script(r.cycles));
      CycleReadings(limits, r, script(r.cycles)) +
      if outcome.Raises? || Terminal(after.state) then [] else DriveReadings(limits, after, script)
  }

  function CallReadings(limits: Limits, r: Runner, c: Call): seq<Reading> {
    match c
    case CallStart(start) => StartReadings(r, start)
    case CallCycle(cycle) => CycleReadings(limits, r, cycle)
    case CallComplete(script, _) => DriveReadings(limits, r, script)
    case CallShutdown(_) => []
  }

  /** Every reading of a run, in order. */
  function RunReadings(limits: Limits, r: Runner, calls: seq<Call>): seq<Reading> {
    if |calls| == 0 then []
    else
      var before := calls[..|calls| - 1];
      RunReadings(limits, r, before) + CallReadings(limits, Run(limits, r, before), calls[|calls| - 1])
  }

  // ---------------------------------------------------------------- maxima

  /** `best` is the largest of the values given, if there are any. */
  ghost predicate IsLargest(best: Option<nat>, values: seq<Option<nat>>) {
    && (best.None? <==> forall i :: 0 <= i < |values| ==> values[i].None?)
    && (best.Some? ==>
          && best in values
          && forall i :: 0 <= i < |values| ==> values[i].Some? ==> values[i].value <= best.value)
  }

  function CoreOf(readings: seq<Reading>): seq<Option<nat>> {
    seq(|readings|, i requires 0 <= i < |readings| => readings[i].sample.core)
  }

  function ChildOf(readings: seq<Reading>): seq<Option<nat>> {
    seq(|readings|, i requires 0 <= i < |readings| => ChildRss(readings[i].sample.child))
  }

  /** Lags count from the zero the runner begins with. */
  function LagOf(readings: seq<Reading>): seq<Option<nat>> {
    [Some(0)] + seq(|readings|, i requires 0 <= i < |readings| =>
      if readings[i].listed then Some(readings[i].sample.peakLag) else None)
  }

  datatype Figures = Figures(latest: Option<Sample>, core: Option<nat>, child: Option<nat>, lag: nat)

  function FiguresOf(r: Runner): Figures {
    Figures(r.latest, r.maxCore, r.maxChild, r.maxLag)
  }

  /** The latest of these readings and the maxima of all of them. */
  ghost predicate Summarize(f: Figures, readings: seq<Reading>) {
    && f.latest == (if readings == [] then None else Some(readings[|readings| - 1].sample))
    && IsLargest(f.core, CoreOf(readings))
    && IsLargest(f.child, ChildOf(readings))
    && IsLargest(Some(f.lag), LagOf(readings))
  }

  lemma GreaterIsLargest(best: Option<nat>, values: seq<Option<nat>>, next: Option<nat>)
    requires IsLargest(best, values)
    ensures IsLargest(Greater(best, next), values + [next])
  {
    var all := values + [next];
    assert all[|values|] == next;
    assert forall i :: 0 <= i < |values| ==> all[i] == values[i];
  }

  lemma OneMore(readings: seq<Reading>, x: Reading)
    ensures CoreOf(readings + [x]) == CoreOf(readings) + [x.sample.core]
    ensures ChildOf(readings + [x]) == ChildOf(readings) + [ChildRss(x.sample.child)]
    ensures LagOf(readings + [x]) == LagOf(readings) + [if x.listed then Some(x.sample.peakLag) else None]
  {
  }

  lemma SampledShows(r: Runner, sample: Sample, readings: seq<Reading>)
    requires Summarize(FiguresOf(r), readings)
    ensures Summarize(FiguresOf(Sampled(r, sample).0), readings + [Reading(sample, r.session.series > 0)])
  {
    var x := Reading(sample, r.session.series > 0);
    OneMore(readings, x);
    GreaterIsLargest(r.maxCore, CoreOf(readings), sample.core);
    GreaterIsLargest(r.maxChild, ChildOf(readings), ChildRss(sample.child));
    GreaterIsLargest(Some(r.maxLag), LagOf(readings), if x.listed then Some(sample.peakLag) else None);
    hide IsLargest, CoreOf, ChildOf, LagOf;
  }

  lemma StartShows(limits: Limits, r: Runner, script: StartScript, readings: seq<Reading>)
    requires Summarize(FiguresOf(r), readings)
    ensures Summarize(FiguresOf(Started(limits, r, script).0), readings + StartReadings(r, script))
  {
    hide Summarize, LimitReason, Sampled;
    assert readings + [] == readings;
    SampledShows(r.(session := script.call.after, state := if script.call.ready then Running else Degraded),
                 script.sample, readings);
  }

  lemma ActionShows(limits: Limits, r: Runner, script: CycleScript, readings: seq<Reading>)
    requires Summarize(FiguresOf(r), readings)
    ensures Summarize(FiguresOf(ActAndSettle(limits, r, script).0), readings + ActionReadings(limits, r, script))
  {
    hide Summarize, LimitReason, Sampled, Action;
    assert readings + [] == readings;
    ActionLeavesFigures(limits, r, script.action, script.actionShut);
    SampledShows(Action(limits, r, script.action, script.actionShut).0, script.second, readings);
  }

  lemma ActionLeavesFigures(limits: Limits, r: Runner, action: Reply, shut: Reply)
    ensures FiguresOf(Action(limits, r, action, shut).0) == FiguresOf(r)
  {
  }

  lemma BodyShows(limits: Limits, r: Runner, script: CycleScript, readings: seq<Reading>)
    requires Summarize(FiguresOf(r), readings)
    ensures Summarize(FiguresOf(CycleBody(limits, r, script).0), readings + BodyReadings(limits, r, script))
  {
    hide Summarize, LimitReason, Sampled, ActAndSettle, ActionReadings;
    var begun := r.(session := script.hook.after, cycles := r.cycles + 1);
    var first := [Reading(script.first, script.hook.after.series > 0)];
    SampledShows(begun, script.first, readings);
    ActionShows(limits, Sampled(begun, script.first).0, script, readings + first);
    assert readings + [] == readings && first + [] == first;
    assert (readings + first) + ActionReadings(limits, Sampled(begun, script.first).0, script)
        == readings + (first + ActionReadings(limits, Sampled(begun, script.first).0, script));
  }

  lemma CycleShows(limits: Limits, r: Runner, script: CycleScript, readings: seq<Reading>)
    requires Summarize(FiguresOf(r), readings)
    ensures Summarize(FiguresOf(RunCycle(limits, r, script).0), readings + CycleReadings(limits, r, script))
  {
    hide Summarize, Started, CycleBody, StartReadings, BodyReadings;
    assert readings + [] == readings;
    if r.state == Stopped {
      var begun, first := Started(limits, r, script.start).0, StartReadings(r, script.start);
      StartShows(limits, r, script.start, readings);
      BodyShows(limits, begun, script, readings + first);
      assert first + [] == first;
      assert (readings + first) + BodyReadings(limits, begun, script)
          == readings + (first + BodyReadings(limits, begun, script));
    } else {
      BodyShows(limits, r, script, readings);
    }
  }

  lemma {:induction false} DriveShows(limits: Limits, r: Runner, script: nat -> CycleScript, readings: seq<Reading>)
    requires Summarize(FiguresOf(r), readings)
    ensures Summarize(FiguresOf(Drive(limits, r, script).0), readings + DriveReadings(limits, r, script))
    decreases if r.cycles < limits.maxCycles then limits.maxCycles - r.cycles else 0, if Terminal(r.state) then 0 else 1
  {
    hide Summarize, RunCycle, CycleReadings;
    assert readings + [] == readings;
    if r.cycles < limits.maxCycles && !Terminal(r.state) {
      var (after, outcome) := RunCycle(limits, r, script(r.cycles));
      var first := CycleReadings(limits, r, script(r.cycles));
      CycleShows(limits, r, script(r.cycles), readings);
      CycleProgresses(limits, r, script(r.cycles));
      assert first + [] == first;
      if outcome.Returns? && !Terminal(after.state) {
        DriveShows(limits, after, script, readings + first);
        assert (readings + first) + DriveReadings(limits, after, script)
            == readings + (first + DriveReadings(limits, after, script));
      }
    }
  }

  lemma CallShows(limits: Limits, r: Runner, c: Call, readings: seq<Reading>)
    requires Summarize(FiguresOf(r), readings)
    ensures Summarize(FiguresOf(Do(limits, r, c)), readings + CallReadings(limits, r, c))
  {
    hide Summarize, RunCycle, CycleReadings, Drive, DriveReadings, Started, StartReadings;
    assert readings + [] == readings;
    match c {
      case CallStart(start) => StartShows(limits, r, start, readings);
      case CallCycle(cycle) => CycleShows(limits, r, cycle, readings);
      case CallComplete(script, _) => DriveShows(limits, r, script, readings);
      case CallShutdown(_) =>
    }
  }

  lemma NothingRead(session: View)
    ensures Summarize(FiguresOf(NewRunner(session)), [])
  {
    assert CoreOf([]) == ChildOf([]) == [];
    var lags := LagOf([]);
    assert lags == [Some(0)] && lags[0] == Some(0);
  }

  /** In every run the runner reports the latest reading taken and, of the core's memory, the child's
      memory and the lag, the largest ever read, whatever calls and failures came between. */
  lemma {:induction false} MaximaAreOfAllReadings(limits: Limits, session: View, calls: seq<Call>)
    ensures Summarize(FiguresOf(Run(limits, NewRunner(session), calls)),
                      RunReadings(limits, NewRunner(session), calls))
  {
    if |calls| == 0 {
      NothingRead(session);
    } else {
      var before := calls[..|calls| - 1];
      MaximaAreOfAllReadings(limits, session, before);
      hide Summarize, Do, CallReadings;
      CallShows(limits, Run(limits, NewRunner(session), before), calls[|calls| - 1],
                RunReadings(limits, NewRunner(session), before));
    }
  }
}
