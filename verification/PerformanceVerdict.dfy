/** What the performance check sees and says, told by the places of a key's samples
    (apps/core/deriv_auto_trader.py, `_performance_allows`). */
module PerformanceVerdict {
  import opened Optional
  import opened PerformanceGate

  // ---------------------------------------------------------------- places

  predicate Increasing(ix: seq<nat>) {
    forall a, b :: 0 <= a < b < |ix| ==> ix[a] < ix[b]
  }

  predicate Within(ix: seq<nat>, n: nat) {
    forall a :: 0 <= a < |ix| ==> ix[a] < n
  }

  function Pick(samples: seq<Sample>, ix: seq<nat>): seq<Sample>
    requires Within(ix, |samples|)
  {
    seq(|ix|, a requires 0 <= a < |ix| => samples[ix[a]])
  }

  /** A manual reset leaves out what was observed before it. */
  predicate Observed(sample: Sample, reset: Option<real>) {
    reset.None? || sample.observed.None? || sample.observed.value >= reset.value
  }

  /** Of the samples a reset leaves in, how many are newer than the one at `i`. */
  function NewerThan(samples: seq<Sample>, reset: Option<real>, i: nat): nat {
    |set j | i < j < |samples| && Observed(samples[j], reset)|
  }

  /** The sample at `i` counts: the reset leaves it in, it is among the last `trades` of those, and it
      settled in the last `hours`. */
  predicate Counts(samples: seq<Sample>, reset: Option<real>, trades: nat, cutoff: real, i: nat)
    requires i < |samples|
  {
    && Observed(samples[i], reset)
    && (trades == 0 || NewerThan(samples, reset, i) < trades)
    && samples[i].settledAt >= cutoff
  }

  /** `ix` lists the places of the samples that count, in order. */
  ghost predicate IsWindow(samples: seq<Sample>, reset: Option<real>, trades: nat, cutoff: real, ix: seq<nat>) {
    && Increasing(ix) && Within(ix, |samples|)
    && forall i :: 0 <= i < |samples| ==> (i in ix <==> Counts(samples, reset, trades, cutoff, i))
  }

  // ---------------------------------------------------------------- the three filters by places

  function Shifted(ix: seq<nat>): seq<nat> {
    seq(|ix|, a requires 0 <= a < |ix| => ix[a] + 1)
  }

  lemma ShiftedPlaces(samples: seq<Sample>, rest: seq<nat>)
    requires samples != [] && Increasing(rest) && Within(rest, |samples| - 1)
    ensures Increasing(Shifted(rest)) && Within(Shifted(rest), |samples|)
    ensures Pick(samples, Shifted(rest)) == Pick(samples[1..], rest)
    ensures forall a :: 0 <= a < |rest| ==> Shifted(rest)[a] > 0
  {
  }

  lemma ShiftedHolds(rest: seq<nat>, i: nat)
    ensures i in Shifted(rest) <==> i > 0 && (i - 1) in rest
  {
    var ix := Shifted(rest);
    if i > 0 && (i - 1) in rest {
      var a :| 0 <= a < |rest| && rest[a] == i - 1;
      assert ix[a] == i;
    }
    if i in ix {
      var a :| 0 <= a < |ix| && ix[a] == i;
      assert rest[a] == i - 1;
    }
  }

  /** The places of a filter: those of the rest one further on, with or without the first. */
  lemma PlacesOfRest(samples: seq<Sample>, rest: seq<nat>, first: bool) returns (ix: seq<nat>)
    requires samples != [] && Increasing(rest) && Within(rest, |samples| - 1)
    ensures Increasing(ix) && Within(ix, |samples|)
    ensures Pick(samples, ix) == (if first then [samples[0]] else []) + Pick(samples[1..], rest)
    ensures 0 in ix <==> first
    ensures forall i :: 0 < i < |samples| ==> (i in ix <==> (i - 1) in rest)
  {
    ShiftedPlaces(samples, rest);
    var shifted := Shifted(rest);
    forall i: nat ensures i in shifted <==> i > 0 && (i - 1) in rest {
      ShiftedHolds(rest, i);
    }
    hide Shifted;
    if first {
      ix := [0] + shifted;
    } else {
      ix := shifted;
    }
  }

  lemma {:induction false} SincePlaces(samples: seq<Sample>, reset: Option<real>) returns (ix: seq<nat>)
    ensures Increasing(ix) && Within(ix, |samples|) && Since(samples, reset) == Pick(samples, ix)
    ensures forall i :: 0 <= i < |samples| ==> (i in ix <==> Observed(samples[i], reset))
  {
    if samples == [] {
      ix := [];
    } else {
      var rest := SincePlaces(samples[1..], reset);
      ix := PlacesOfRest(samples, rest, Observed(samples[0], reset));
      SinceUnfolds(samples, reset);
    }
  }

  lemma {:induction false} SinceUnfolds(samples: seq<Sample>, reset: Option<real>)
    requires samples != []
    ensures Since(samples, reset) ==
            (if Observed(samples[0], reset) then [samples[0]] else []) + Since(samples[1..], reset)
  {
    if reset.None? {
      assert Since(samples[1..], reset) == samples[1..];
    }
  }

  lemma {:induction false} NotBeforePlaces(samples: seq<Sample>, cutoff: real) returns (ix: seq<nat>)
    ensures Increasing(ix) && Within(ix, |samples|) && NotBefore(samples, cutoff) == Pick(samples, ix)
    ensures forall i :: 0 <= i < |samples| ==> (i in ix <==> samples[i].settledAt >= cutoff)
  {
    if samples == [] {
      ix := [];
    } else {
      var rest := NotBeforePlaces(samples[1..], cutoff);
      ix := PlacesOfRest(samples, rest, samples[0].settledAt >= cutoff);
    }
  }

  function Composed(outer: seq<nat>, inner: seq<nat>): seq<nat>
    requires Within(inner, |outer|)
  {
    seq(|inner|, a requires 0 <= a < |inner| => outer[inner[a]])
  }

  lemma PicksCompose(samples: seq<Sample>, outer: seq<nat>, inner: seq<nat>)
    requires Within(outer, |samples|) && Within(inner, |outer|) && Increasing(outer) && Increasing(inner)
    ensures Increasing(Composed(outer, inner)) && Within(Composed(outer, inner), |samples|)
    ensures Pick(Pick(samples, outer), inner) == Pick(samples, Composed(outer, inner))
  {
  }

  /** In the list of places, the newer ones come after. */
  lemma NewerComeAfter(samples: seq<Sample>, reset: Option<real>, ix: seq<nat>, p: nat)
    requires Increasing(ix) && Within(ix, |samples|) && p < |ix|
    requires forall i :: 0 <= i < |samples| ==> (i in ix <==> Observed(samples[i], reset))
    ensures NewerThan(samples, reset, ix[p]) == |ix| - 1 - p
  {
    var newer := set j | ix[p] < j < |samples| && Observed(samples[j], reset);
    var after := ix[p + 1..];
    forall j ensures j in newer <==> j in after {
      if j in after {
        var a :| 0 <= a < |after| && after[a] == j;
        assert ix[p + 1 + a] == j;
      }
      if j in newer {
        var a :| 0 <= a < |ix| && ix[a] == j;
        assert after[a - p - 1] == j;
      }
    }
    assert newer == Places(after);
    IncreasingCount(after);
  }

  function Places(ix: seq<nat>): set<nat> {
    set j | j in ix
  }

  lemma {:induction false} IncreasingCount(ix: seq<nat>)
    requires Increasing(ix)
    ensures |Places(ix)| == |ix|
  {
    if ix != [] {
      var front, last := ix[..|ix| - 1], ix[|ix| - 1];
      IncreasingCount(front);
      assert Places(ix) == Places(front) + {last};
      assert last !in front;
    }
  }

  lemma NewestPlaces(samples: seq<Sample>, since: seq<nat>, trades: nat) returns (d: nat)
    requires Increasing(since) && Within(since, |samples|)
    ensures d == if trades == 0 || |since| <= trades then 0 else |since| - trades
    ensures Increasing(since[d..]) && Within(since[d..], |samples|)
    ensures Newest(Pick(samples, since), trades) == Pick(samples, since[d..])
  {
    d := if trades == 0 || |since| <= trades then 0 else |since| - trades;
  }

  /** The window is the samples that count, in order. */
  lemma WindowPlaces(samples: seq<Sample>, reset: Option<real>, trades: nat, cutoff: real) returns (ix: seq<nat>)
    ensures IsWindow(samples, reset, trades, cutoff, ix)
    ensures NotBefore(Newest(Since(samples, reset), trades), cutoff) == Pick(samples, ix)
  {
    hide Since, Newest, NotBefore, Counts, Observed;
    var since := SincePlaces(samples, reset);
    var d := NewestPlaces(samples, since, trades);
    var recent := NotBeforePlaces(Pick(samples, since[d..]), cutoff);
    PicksCompose(samples, since[d..], recent);
    ix := Composed(since[d..], recent);
    assert forall q :: 0 <= q < |since| - d ==> Pick(samples, since[d..])[q] == samples[since[q + d]];
    hide Composed, Increasing, Within, Pick;
    forall i | 0 <= i < |samples| ensures i in ix <==> Counts(samples, reset, trades, cutoff, i) {
      PlaceCounts(samples, reset, trades, cutoff, since, d, recent, i);
    }
  }

  lemma PlaceCounts(
    samples: seq<Sample>, reset: Option<real>, trades: nat, cutoff: real,
    since: seq<nat>, d: nat, recent: seq<nat>, i: nat)
    requires Increasing(since) && Within(since, |samples|) && i < |samples|
    requires forall i :: 0 <= i < |samples| ==> (i in since <==> Observed(samples[i], reset))
    requires d == if trades == 0 || |since| <= trades then 0 else |since| - trades
    requires Increasing(recent) && Within(recent, |since| - d)
    requires forall q :: 0 <= q < |since| - d ==> (q in recent <==> samples[since[q + d]].settledAt >= cutoff)
    ensures i in Composed(since[d..], recent) <==> Counts(samples, reset, trades, cutoff, i)
  {
    var newest := since[d..];
    var ix := Composed(newest, recent);
    if Observed(samples[i], reset) {
      var p :| 0 <= p < |since| && since[p] == i;
      NewerComeAfter(samples, reset, since, p);
      assert (trades == 0 || NewerThan(samples, reset, i) < trades) <==> p >= d;
      if p >= d {
        assert newest[p - d] == i;
        if (p - d) in recent {
          var a :| 0 <= a < |recent| && recent[a] == p - d;
          assert ix[a] == i;
        }
      }
    }
    if i in ix {
      var a :| 0 <= a < |ix| && ix[a] == i;
      assert recent[a] in recent && newest[recent[a]] == i == since[recent[a] + d];
    }
  }

  /** The places that count determine their list. */
  lemma {:induction false} PlacesAreUnique(a: seq<nat>, b: seq<nat>)
    requires Increasing(a) && Increasing(b) && forall i :: i in a <==> i in b
    ensures a == b
  {
    IncreasingCount(a);
    IncreasingCount(b);
    assert Places(a) == Places(b);
    if a != [] {
      var x, y := a[|a| - 1], b[|b| - 1];
      assert x in b && y in a;
      assert x == y;
      var front, other := a[..|a| - 1], b[..|b| - 1];
      forall i ensures i in front <==> i in other {
        FrontHolds(a, i);
        FrontHolds(b, i);
      }
      PlacesAreUnique(front, other);
      assert a == front + [x] && b == other + [y];
    }
  }

  lemma FrontHolds(ix: seq<nat>, i: nat)
    requires ix != [] && Increasing(ix)
    ensures i in ix[..|ix| - 1] <==> i in ix && i != ix[|ix| - 1]
  {
  }

  /** Whoever lists the places that count has the window. */
  lemma WindowIs(g: Gate, key: Key, config: Config, clock: Clock, ix: seq<nat>)
    requires IsWindow(Samples(g, key), Get(g.resetAt, key), config.windowTrades,
                      clock.cutoffUtc - config.windowHours * 3600.0, ix)
    ensures Window(g, key, config, clock) == Pick(Samples(g, key), ix)
  {
    var samples, reset := Samples(g, key), Get(g.resetAt, key);
    var cutoff := clock.cutoffUtc - config.windowHours * 3600.0;
    var places := WindowPlaces(samples, reset, config.windowTrades, cutoff);
    hide Counts;
    forall i ensures i in places <==> i in ix {
      InRange(places, |samples|, i);
      InRange(ix, |samples|, i);
    }
    PlacesAreUnique(places, ix);
  }

  lemma InRange(ix: seq<nat>, n: nat, i: nat)
    requires Within(ix, n)
    ensures i in ix ==> i < n
  {
  }

  // ---------------------------------------------------------------- the total

  /** The profit and loss at the listed places, added up. */
  function PnlAt(samples: seq<Sample>, ix: seq<nat>): int
    requires Within(ix, |samples|)
  {
    if ix == [] then 0 else PnlAt(samples, ix[..|ix| - 1]) + samples[ix[|ix| - 1]].pnlMinor
  }

  lemma {:induction false} TotalIsAdditive(a: seq<Sample>, b: seq<Sample>)
    ensures TotalPnl(a + b) == TotalPnl(a) + TotalPnl(b)
  {
    if a == [] {
      assert a + b == b;
    } else {
      assert (a + b)[1..] == a[1..] + b;
      TotalIsAdditive(a[1..], b);
    }
  }

  lemma TotalOfOne(sample: Sample)
    ensures TotalPnl([]) == 0 && TotalPnl([sample]) == sample.pnlMinor
  {
  }

  lemma {:induction false} TotalIsPnlAt(samples: seq<Sample>, ix: seq<nat>)
    requires Within(ix, |samples|)
    ensures TotalPnl(Pick(samples, ix)) == PnlAt(samples, ix)
  {
    if ix != [] {
      var front, last := ix[..|ix| - 1], samples[ix[|ix| - 1]];
      TotalIsPnlAt(samples, front);
      TotalOfOne(last);
      TotalIsAdditive(Pick(samples, front), [last]);
      assert Pick(samples, ix) == Pick(samples, front) + [last];
    }
  }

  // ---------------------------------------------------------------- the verdict

  /** The estimate reaches the requirement, raised by the edge floor but by no more than the cap. */
  predicate HasEdge(c: Candidate, edgeFloor: real, config: Config) {
    c.estimated >= c.required + if edgeFloor < config.ratchetCap then edgeFloor else config.ratchetCap
  }

  /** Ten samples or more, and nothing earned with them. */
  predicate LosesAt(samples: seq<Sample>, ix: seq<nat>)
    requires Within(ix, |samples|)
  {
    |ix| >= 10 && PnlAt(samples, ix) <= 0
  }

  /** The pause: a stored end still ahead, or none stored and a second or more of the ten minutes left. */
  predicate PauseRuns(g: Gate, key: Key, lastSettled: real, clock: Clock) {
    if key in g.cooldownUntil then clock.monotonic < g.cooldownUntil[key]
    else lastSettled + COOLDOWN_SECONDS - clock.utc >= 1.0
  }

  lemma PauseRunsExactly(g: Gate, key: Key, lastSettled: real, clock: Clock)
    ensures StillPaused(g, key, lastSettled, clock) <==> PauseRuns(g, key, lastSettled, clock)
    ensures PauseRuns(g, key, lastSettled, clock) && key !in g.cooldownUntil ==>
              var end := PauseEnd(g, key, lastSettled, clock);
              && end.Some?
              && end.value <= clock.monotonic + (lastSettled + COOLDOWN_SECONDS - clock.utc) < end.value + 1.0
  {
    var left := lastSettled + COOLDOWN_SECONDS - clock.utc;
    if left >= 1.0 {
      assert PauseLeft(lastSettled, clock.utc) > 0;
    }
  }

  /** What a check says and does: a window that is not losing is judged by the edge alone and loses its
      probes; so is a losing one with probes left; without probes it is refused while an order is
      pending or the pause runs, and otherwise granted ten. */
  predicate Judged(g: Gate, key: Key, empty: bool, losing: bool, last: real, clock: Clock, edge: Verdict,
                   after: Gate, verdict: Verdict)
  {
    if !losing then
      && verdict == edge && after.cooldownUntil == g.cooldownUntil
      && after.remaining == if empty then g.remaining else g.remaining - {key}
    else if key in g.remaining && g.remaining[key] > 0 then verdict == edge && after == g
    else if key in g.pending then verdict == Paused && after == g
    else if PauseRuns(g, key, last, clock) then
      && verdict == Paused && after.remaining == g.remaining && key in after.cooldownUntil
      && (key in g.cooldownUntil ==> after.cooldownUntil == g.cooldownUntil)
      && (key !in g.cooldownUntil ==>
            var left := last + COOLDOWN_SECONDS - clock.utc;
            after.cooldownUntil[key] <= clock.monotonic + left < after.cooldownUntil[key] + 1.0)
    else
      && verdict == edge && after.remaining == g.remaining[key := 10]
      && after.cooldownUntil == g.cooldownUntil - {key}
  }

  lemma GatedIsJudged(g: Gate, key: Key, window: seq<Sample>, clock: Clock, edge: bool)
    ensures var (after, verdict) := Gated(g, key, window, clock, edge);
            Judged(g, key, window == [], Losing(window), if window == [] then 0.0 else window[|window| - 1].settledAt,
                   clock, if edge then Allowed else NoEdge, after, verdict)
  {
    if window != [] {
      PauseRunsExactly(g, key, window[|window| - 1].settledAt, clock);
      if key in g.cooldownUntil {
        assert g.cooldownUntil[key := g.cooldownUntil[key]] == g.cooldownUntil;
      }
    }
    hide StillPaused, PauseRuns, PauseLeft, TotalPnl;
  }

  /** So it is, by the samples that count. */
  lemma VerdictIs(g: Gate, c: Candidate, config: Config, edgeFloor: real, clock: Clock, ix: seq<nat>)
    requires c.key.strategy != PAYOUT_ROUTED && g.initialized
    requires IsWindow(Samples(g, c.key), Get(g.resetAt, c.key), config.windowTrades,
                      clock.cutoffUtc - config.windowHours * 3600.0, ix)
    ensures var samples := Samples(g, c.key);
            var (after, verdict) := Allows(g, c, config, edgeFloor, clock);
            Judged(g, c.key, ix == [], LosesAt(samples, ix), if ix == [] then 0.0 else samples[ix[|ix| - 1]].settledAt,
                   clock, if HasEdge(c, edgeFloor, config) then Allowed else NoEdge, after, verdict)
  {
    var samples := Samples(g, c.key);
    WindowIs(g, c.key, config, clock, ix);
    TotalIsPnlAt(samples, ix);
    EdgeIs(c, edgeFloor, config);
    GatedIsJudged(g, c.key, Window(g, c.key, config, clock), clock, EdgeHolds(c, edgeFloor, config));
    hide Window, TotalPnl, IsWindow, Samples, PnlAt, Gated, Judged, EdgeHolds, HasEdge;
  }

  lemma EdgeIs(c: Candidate, edgeFloor: real, config: Config)
    ensures EdgeHolds(c, edgeFloor, config) <==> HasEdge(c, edgeFloor, config)
  {
  }

  /** The payout-routed strategy is always allowed; any other is refused while the cache is missing. */
  lemma VerdictWithoutWindow(g: Gate, c: Candidate, config: Config, edgeFloor: real, clock: Clock)
    ensures c.key.strategy == PAYOUT_ROUTED ==> Allows(g, c, config, edgeFloor, clock) == (g, Allowed)
    ensures c.key.strategy != PAYOUT_ROUTED && !g.initialized ==>
              Allows(g, c, config, edgeFloor, clock) == (g, CacheUnavailable)
  {
  }
}
