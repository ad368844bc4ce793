/** IQOptionMessageBudget (apps/core/iqoption_connection_safety.py): a sliding 60-second budget. */
module MessageBudget {
  import opened Optional
  import opened SlidingWindow

  const WINDOW_SECONDS := 60.0

  datatype Decision = Decision(allowed: bool, usedInWindow: nat, limit: nat, pressure: bool)

  datatype Reply = InvalidTime | Decided(decision: Decision)

  /** The threshold the constructor settles on, or None when it raises. */
  function ResolvedPressure(limit: int, pressureAt: Option<int>): (r: Option<int>)
    ensures r.Some? ==> 1 <= r.value <= limit
    ensures limit > 0 && pressureAt.None? ==>
              r.Some? && 5 * r.value >= 4 * limit && 5 * (r.value - 1) < 4 * limit
    ensures r.None? <==> limit <= 0 || (pressureAt.Some? && !(1 <= pressureAt.value <= limit))
  {
    if limit <= 0 then None
    else
      var chosen := if pressureAt.Some? then pressureAt.value
                    else if (limit * 4 + 4) / 5 > 1 then (limit * 4 + 4) / 5 else 1;
      if 1 <= chosen <= limit then Some(chosen) else None
  }

  class Budget {
    var timestamps: seq<real>
    const limit: nat
    const pressureAt: nat

    constructor (limit: nat, pressureAt: nat)
      requires 1 <= pressureAt <= limit
      ensures this.limit == limit && this.pressureAt == pressureAt && timestamps == []
    {
      this.limit, this.pressureAt, timestamps := limit, pressureAt, [];
    }

    /** The constructor's own checks: nothing is built when it would raise. */
    static method Create(limit: int, pressureAt: Option<int>) returns (b: Option<Budget>)
      ensures b.Some? <==> limit > 0 && (pressureAt.Some? ==> 1 <= pressureAt.value <= limit)
      ensures b.Some? ==> fresh(b.value) && b.value.limit == limit && b.value.timestamps == []
      ensures b.Some? ==> Some(b.value.pressureAt) == ResolvedPressure(limit, pressureAt)
    {
      var resolved := ResolvedPressure(limit, pressureAt);
      if resolved.None? {
        return None;
      }
      var made := new Budget(limit, resolved.value);
      b := Some(made);
    }

    method TryAcquire(now: real) returns (r: Reply)
      modifies this
      ensures (timestamps, r) == Acquire(limit, pressureAt, old(timestamps), now)
    {
      if now < 0.0 {
        return InvalidTime;
      }
      var boundary := now - WINDOW_SECONDS;
      while timestamps != [] && timestamps[0] <= boundary
        invariant DropExpired(timestamps, boundary) == DropExpired(old(timestamps), boundary)
        decreases |timestamps|
      {
        timestamps := timestamps[1..];
      }
      var used := |timestamps|;
      var allowed := used < limit;
      if allowed {
        timestamps := timestamps + [now];
        used := used + 1;
      }
      r := Decided(Decision(allowed, used, limit, used >= pressureAt));
    }
  }

  /** One call on the deque `live`. */
  function Acquire(limit: nat, pressureAt: nat, live: seq<real>, now: real): (seq<real>, Reply) {
    if now < 0.0 then (live, InvalidTime)
    else
      var kept := DropExpired(live, now - WINDOW_SECONDS);
      var allowed := |kept| < limit;
      var after := if allowed then kept + [now] else kept;
      (after, Decided(Decision(allowed, |after|, limit, |after| >= pressureAt)))
  }

  /** The deque and every admission ever made, after calls at `times`. */
  function Run(limit: nat, pressureAt: nat, times: seq<real>): (s: (seq<real>, seq<real>)) {
    if times == [] then ([], [])
    else
      var (live, history) := Run(limit, pressureAt, times[..|times| - 1]);
      var now := times[|times| - 1];
      var (live', reply) := Acquire(limit, pressureAt, live, now);
      (live', if reply.Decided? && reply.decision.allowed then history + [now] else history)
  }

  /** A monotonic clock that never reads below zero. */
  predicate Monotonic(times: seq<real>) {
    Ascending(times) && forall i :: 0 <= i < |times| ==> times[i] >= 0.0
  }

  ghost predicate Faithful(limit: nat, live: seq<real>, history: seq<real>, now: real) {
    && Ascending(history)
    && (forall i :: 0 <= i < |history| ==> history[i] <= now)
    && Spaced(history, limit, WINDOW_SECONDS)
    && live == After(history, now - WINDOW_SECONDS)
  }

  /** One call made at `now` or later: the deque it prunes to is the live part of all history. */
  lemma AcquireSeesHistory(limit: nat, live: seq<real>, history: seq<real>, before: real, now: real)
    requires Faithful(limit, live, history, before) && before <= now
    ensures DropExpired(live, now - WINDOW_SECONDS) == After(history, now - WINDOW_SECONDS)
    ensures |After(history, now - WINDOW_SECONDS)| <= limit
  {
    hide After, DropExpired;
    var k := AfterIsSuffix(history, before - WINDOW_SECONDS);
    assert Ascending(history[k..]);
    DropExpiredIsAfter(live, now - WINDOW_SECONDS);
    AfterForgets(history, k, now - WINDOW_SECONDS);
    LiveEntriesAreCapped(history, limit, WINDOW_SECONDS, now);
  }

  lemma AcquireKeepsFaith(limit: nat, pressureAt: nat, live: seq<real>, history: seq<real>, before: real, now: real)
    requires Faithful(limit, live, history, before) && before <= now && now >= 0.0
    ensures var (live', reply) := Acquire(limit, pressureAt, live, now);
            && reply.Decided?
            && Faithful(limit, live', if reply.decision.allowed then history + [now] else history, now)
  {
    AcquireSeesHistory(limit, live, history, before, now);
    if |After(history, now - WINDOW_SECONDS)| < limit {
      AdmissionKeepsSpacing(history, limit, WINDOW_SECONDS, now);
      AfterOfAppend(history, now, now - WINDOW_SECONDS);
    }
  }

  lemma {:induction false} RunIsFaithful(limit: nat, pressureAt: nat, times: seq<real>)
    requires Monotonic(times)
    ensures var (live, history) := Run(limit, pressureAt, times);
            Faithful(limit, live, history, if times == [] then 0.0 else times[|times| - 1])
  {
    if times != [] {
      var earlier := times[..|times| - 1];
      RunIsFaithful(limit, pressureAt, earlier);
      var (live, history) := Run(limit, pressureAt, earlier);
      var before := if earlier == [] then 0.0 else earlier[|earlier| - 1];
      AcquireKeepsFaith(limit, pressureAt, live, history, before, times[|times| - 1]);
    }
  }

  /** In every run on a monotonic clock: no half-open minute holds more than `limit` admissions. */
  lemma {:induction false} AtMostLimitPerMinute(limit: nat, pressureAt: nat, times: seq<real>, w: Window)
    requires Monotonic(times)
    requires w.high - w.low == WINDOW_SECONDS
    ensures |Inside(Run(limit, pressureAt, times).1, w)| <= limit
  {
    RunIsFaithful(limit, pressureAt, times);
    SpacedBoundsWindows(Run(limit, pressureAt, times).1, limit, w);
  }

  /** The next call is admitted exactly when fewer than `limit` admissions of the whole history
      are still inside the minute ending at it, and the deque it leaves is exactly that part of
      the new history; a refused call found exactly `limit` of them. */
  lemma {:induction false} DecisionMatchesHistory(limit: nat, pressureAt: nat, times: seq<real>, now: real)
    requires Monotonic(times + [now])
    ensures var history := Run(limit, pressureAt, times).1;
            var inMinute := |After(history, now - WINDOW_SECONDS)|;
            var (live, history') := Run(limit, pressureAt, times + [now]);
            var reply := Acquire(limit, pressureAt, Run(limit, pressureAt, times).0, now).1;
            && reply.Decided?
            && inMinute <= limit
            && (reply.decision.allowed <==> inMinute < limit)
            && (!reply.decision.allowed ==> inMinute == limit)
            && live == After(history', now - WINDOW_SECONDS)
            && reply.decision.usedInWindow == |live|
            && (reply.decision.pressure <==> |live| >= pressureAt)
  {
    LastReading(times, now);
    RunIsFaithful(limit, pressureAt, times);
    RunIsFaithful(limit, pressureAt, times + [now]);
    var (live, history) := Run(limit, pressureAt, times);
    AcquireSeesHistory(limit, live, history, if times == [] then 0.0 else times[|times| - 1], now);
  }

  lemma LastReading(times: seq<real>, now: real)
    requires Monotonic(times + [now])
    ensures Monotonic(times) && (if times == [] then 0.0 else times[|times| - 1]) <= now
    ensures (times + [now])[..|times + [now]| - 1] == times
  {
    var all := times + [now];
    assert forall i :: 0 <= i < |times| ==> times[i] == all[i];
    assert all[|times|] == now >= 0.0;
    assert times != [] ==> all[|times| - 1] <= all[|times|];
  }
}
