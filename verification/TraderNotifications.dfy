/** Coalesced notifications of the Deriv auto-trader (apps/core/deriv_auto_trader.py): a generation
    counter and a wake flag shared by one trader thread and any number of notifying threads.
    Every block the source runs under `_signal_lock`, and every call on an Event, is one step. */
module TraderNotifications {

  /** Where the trader thread is in `_run` and `_process_pending_once`. */
  datatype Pc =
    | CheckingStop                 // while not stop.is_set()
    | Waiting                      // wake.wait()
    | Woken                        // if stop.is_set(): return
    | CheckingStopAgain            // while not stop.is_set() and ...
    | Reading                      // the first locked block
    | Throttled(target: nat)       // interval_waiter(remaining)
    | Evaluating(target: nat)      // evaluate_once()
    | Exited

  /** An evaluation: the generation it will record, and how many were issued when it began. */
  datatype Evaluation = Evaluation(target: nat, issued: nat)

  datatype State = State(
    generation: nat,
    evaluated: nat,
    wake: bool,
    stop: bool,
    midNotify: nat,    // notifiers between the increment and wake.set()
    midStop: nat,      // stoppers between stop.set() and wake.set()
    pc: Pc,
    begun: seq<Evaluation>)

  const INITIAL := State(0, 0, false, false, 0, 0, CheckingStop, [])

  /** `Trader(throttle, abort)`: one trader step; `throttle` when the minimum interval has not
      passed, `abort` when the interval waiter reports True. */
  datatype Step = Increment | SetWake | RaiseStop | WakeForStop | Trader(throttle: bool, abort: bool)

  function Begin(s: State, target: nat): State {
    s.(pc := Evaluating(target), begun := s.begun + [Evaluation(target, s.generation)])
  }

  function TraderStep(s: State, throttle: bool, abort: bool): State {
    match s.pc
    case CheckingStop => s.(pc := if s.stop then Exited else Waiting)
    case Waiting => if s.wake then s.(pc := Woken) else s
    case Woken => s.(pc := if s.stop then Exited else CheckingStopAgain)
    case CheckingStopAgain => s.(pc := if s.stop then CheckingStop else Reading)
    case Reading =>
      if s.generation == s.evaluated then s.(wake := false, pc := CheckingStop)
      else if throttle then s.(pc := Throttled(s.generation))
      else Begin(s, s.generation)
    case Throttled(target) => if abort then s.(pc := CheckingStop) else Begin(s, target)
    case Evaluating(target) => s.(evaluated := target, pc := CheckingStopAgain)
    case Exited => s
  }

  /** A step that is not possible in `s` leaves it alone. */
  function Next(s: State, step: Step): State {
    match step
    case Increment => s.(generation := s.generation + 1, midNotify := s.midNotify + 1)
    case SetWake => if s.midNotify > 0 then s.(wake := true, midNotify := s.midNotify - 1) else s
    case RaiseStop => s.(stop := true, midStop := s.midStop + 1)
    case WakeForStop => if s.midStop > 0 then s.(wake := true, midStop := s.midStop - 1) else s
    case Trader(throttle, abort) => TraderStep(s, throttle, abort)
  }

  function Run(steps: seq<Step>): State {
    if steps == [] then INITIAL else Next(Run(steps[..|steps| - 1]), steps[|steps| - 1])
  }

  // ---------------------------------------------------------------- the invariant

  predicate PastTheWait(pc: Pc) {
    pc.Woken? || pc.CheckingStopAgain? || pc.Reading? || pc.Throttled? || pc.Evaluating?
  }

  ghost predicate LogInOrder(s: State) {
    && (forall i :: 0 <= i < |s.begun| ==> i < s.begun[i].target <= s.begun[i].issued <= s.generation)
    && (forall i, j :: 0 <= i < j < |s.begun| ==> s.begun[i].target < s.begun[j].target)
  }

  function LastTarget(s: State): nat {
    if s.begun == [] then 0 else s.begun[|s.begun| - 1].target
  }

  ghost predicate Inv(s: State) {
    && LogInOrder(s)
    && s.evaluated <= LastTarget(s) <= s.generation
    && (PastTheWait(s.pc) ==> s.wake)
    && (!s.wake && s.generation != s.evaluated ==> s.midNotify > 0)
    && (s.pc.Waiting? && s.stop && !s.wake ==> s.midStop > 0)
    && (if s.pc.Evaluating? then s.begun != [] && s.evaluated < s.pc.target == LastTarget(s)
        else s.evaluated == LastTarget(s))
    && (s.pc.Throttled? ==> s.evaluated < s.pc.target <= s.generation)
  }

  lemma BeginKeepsLog(s: State, target: nat)
    requires LogInOrder(s) && LastTarget(s) < target <= s.generation
    ensures LogInOrder(Begin(s, target))
  {
  }

  lemma NextKeepsInv(s: State, step: Step)
    requires Inv(s)
    ensures Inv(Next(s, step))
  {
    if step.Trader? {
      TraderKeepsInv(s, step.throttle, step.abort);
    } else {
      assert LogInOrder(Next(s, step));
    }
  }

  /** The log and the order of its entries depend on nothing else. */
  lemma SameLog(s: State, t: State)
    requires LogInOrder(s) && t.begun == s.begun && t.generation == s.generation
    ensures LogInOrder(t) && LastTarget(t) == LastTarget(s)
  {
  }

  lemma BeginKeepsInv(s: State, target: nat)
    requires Inv(s) && s.wake && !s.pc.Evaluating? && s.evaluated < target <= s.generation
    ensures Inv(Begin(s, target))
  {
    BeginKeepsLog(s, target);
    hide LogInOrder;
  }

  lemma TraderKeepsInv(s: State, throttle: bool, abort: bool)
    requires Inv(s)
    ensures Inv(TraderStep(s, throttle, abort))
  {
    if s.pc.Reading? && s.generation != s.evaluated && !throttle {
      BeginKeepsInv(s, s.generation);
      hide Inv, Begin;
    } else if s.pc.Throttled? && !abort {
      BeginKeepsInv(s, s.pc.target);
      hide Inv, Begin;
    } else {
      hide LogInOrder, LastTarget, Begin;
      SameLog(s, TraderStep(s, throttle, abort));
    }
  }

  lemma {:induction false} RunKeepsInv(steps: seq<Step>)
    ensures Inv(Run(steps))
  {
    if steps != [] {
      RunKeepsInv(steps[..|steps| - 1]);
      NextKeepsInv(Run(steps[..|steps| - 1]), steps[|steps| - 1]);
    }
  }

  // ---------------------------------------------------------------- no notification is lost

  /** In every interleaving, a trader parked on a clear flag has nothing left to evaluate and
      nothing to stop for, unless some thread is still between its update and its `set`. */
  lemma {:induction false} NeverParkedWithWork(steps: seq<Step>)
    ensures var s := Run(steps);
            s.pc.Waiting? && !s.wake ==>
              && (s.evaluated == s.generation || s.midNotify > 0)
              && (!s.stop || s.midStop > 0)
  {
    RunKeepsInv(steps);
  }

  /** A parked trader with no notifier in flight has finished an evaluation that began only after
      every notification so far had been issued. */
  lemma {:induction false} ParkedMeansUpToDate(steps: seq<Step>)
    ensures var s := Run(steps);
            s.pc.Waiting? && !s.wake && s.midNotify == 0 && s.generation > 0 ==>
              && s.begun != []
              && s.begun[|s.begun| - 1].issued == s.generation
              && s.evaluated == s.begun[|s.begun| - 1].target == s.generation
  {
    RunKeepsInv(steps);
  }

  /** Each recorded generation had been issued before its evaluation began, generations are
      recorded in increasing order, and evaluations never outnumber notifications. */
  lemma {:induction false} EvaluationsFollowNotifications(steps: seq<Step>)
    ensures var s := Run(steps);
            && (forall i :: 0 <= i < |s.begun| ==> s.begun[i].target <= s.begun[i].issued <= s.generation)
            && (forall i, j :: 0 <= i < j < |s.begun| ==> s.begun[i].target < s.begun[j].target)
            && |s.begun| <= s.generation
  {
    RunKeepsInv(steps);
    var s := Run(steps);
    if s.begun != [] {
      assert |s.begun| - 1 < s.begun[|s.begun| - 1].target;
    }
  }

  // ---------------------------------------------------------------- the trader catches up on its own

  function Solo(s: State, n: nat): State {
    if n == 0 then s else TraderStep(Solo(s, n - 1), false, false)
  }

  function StepsToReading(pc: Pc): nat {
    match pc
    case CheckingStop => 4
    case Waiting => 3
    case Woken => 2
    case CheckingStopAgain => 1
    case Reading => 0
    case Throttled(_) => 3
    case Evaluating(_) => 2
    case Exited => 0
  }

  /** Left alone, with no notifier in flight and no stop asked for, the trader records the latest
      generation within six of its own steps, wherever it is. */
  lemma {:induction false} TraderCatchesUp(steps: seq<Step>)
    ensures var s := Run(steps);
            !s.stop && s.midNotify == 0 ==>
              exists n :: 0 <= n <= 6 && Solo(s, n).evaluated == s.generation
  {
    RunKeepsInv(steps);
    NotExitedUnlessStopped(steps);
    var s := Run(steps);
    if !s.stop && s.midNotify == 0 {
      if s.generation == s.evaluated {
        assert Solo(s, 0).evaluated == s.generation;
      } else {
        var k := StepsToReading(s.pc);
        ReachesReading(s);
        assert Solo(s, k + 2) == TraderStep(TraderStep(Solo(s, k), false, false), false, false);
        if Solo(s, k).evaluated == s.generation {
          assert 0 <= k <= 6;
        } else {
          assert Solo(s, k + 2).evaluated == s.generation;
        }
      }
    }
  }

  lemma ReachesReading(s: State)
    requires Inv(s) && !s.stop && s.midNotify == 0 && !s.pc.Exited? && s.generation != s.evaluated
    ensures var r := Solo(s, StepsToReading(s.pc));
            r.pc.Reading? && r.generation == s.generation
  {
    var s0 := Solo(s, 0);
    var s1 := Solo(s, 1);
    var s2 := Solo(s, 2);
    var s3 := Solo(s, 3);
    assert s1 == TraderStep(s0, false, false);
    assert s2 == TraderStep(s1, false, false);
    assert s3 == TraderStep(s2, false, false);
    assert Solo(s, 4) == TraderStep(s3, false, false);
  }

  lemma {:induction false} NotExitedUnlessStopped(steps: seq<Step>)
    ensures Run(steps).pc.Exited? ==> Run(steps).stop
  {
    if steps != [] {
      NotExitedUnlessStopped(steps[..|steps| - 1]);
    }
  }
}
