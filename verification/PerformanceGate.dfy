/** The auto-trader's performance pause (apps/core/deriv_auto_trader.py): a losing window for a
    (strategy, symbol) blocks it for a cooldown, after which a budget of probe orders is granted. */
module PerformanceGate {
  import opened Optional

  const PROBE_ORDERS: nat := 10
  const COOLDOWN_SECONDS := 600.0
  const SAMPLES_KEPT: nat := 30
  const PAYOUT_ROUTED: string := "payout-routed-differs-session"

  datatype Key = Key(strategy: string, symbol: string)

  datatype Sample = Sample(order: string, pnlMinor: int, settledAt: real, observed: Option<real>)

  datatype Config = Config(windowTrades: nat, windowHours: real, ratchetCap: real)

  datatype Candidate = Candidate(key: Key, estimated: real, required: real)

  /** The clocks as one check reads them, in this order: UTC for the window's cutoff, the monotonic
      clock, and UTC again for what is left of the pause. */
  datatype Clock = Clock(cutoffUtc: real, monotonic: real, utc: real)

  datatype Verdict = Allowed | CacheUnavailable | Paused | NoEdge

  datatype Gate = Gate(
    initialized: bool,
    performance: map<Key, seq<Sample>>,
    resetAt: map<Key, real>,
    remaining: map<Key, nat>,
    pending: set<Key>,
    cooldownUntil: map<Key, real>,
    inflightKnown: bool,             // the set of in-flight orders is not None
    scopes: map<string, Key>)        // _order_scope

  // ---------------------------------------------------------------- the window

  function Since(samples: seq<Sample>, reset: Option<real>): seq<Sample> {
    if reset.None? || samples == [] then samples
    else
      (if samples[0].observed.None? || samples[0].observed.value >= reset.value then [samples[0]] else [])
      + Since(samples[1..], reset)
  }

  function Newest(samples: seq<Sample>, n: nat): seq<Sample> {
    if n == 0 || |samples| <= n then samples else samples[|samples| - n..]
  }

  function NotBefore(samples: seq<Sample>, cutoff: real): seq<Sample> {
    if samples == [] then []
    else (if samples[0].settledAt >= cutoff then [samples[0]] else []) + NotBefore(samples[1..], cutoff)
  }

  function TotalPnl(samples: seq<Sample>): int {
    if samples == [] then 0 else samples[0].pnlMinor + TotalPnl(samples[1..])
  }

  function Get<V>(m: map<Key, V>, key: Key): Option<V> {
    if key in m then Some(m[key]) else None
  }

  function Samples(g: Gate, key: Key): seq<Sample> {
    if key in g.performance then g.performance[key] else []
  }

  function Window(g: Gate, key: Key, config: Config, clock: Clock): seq<Sample> {
    NotBefore(Newest(Since(Samples(g, key), Get(g.resetAt, key)), config.windowTrades),
              clock.cutoffUtc - config.windowHours * 3600.0)
  }

  predicate Losing(window: seq<Sample>) {
    |window| >= 10 && TotalPnl(window) <= 0
  }

  // ---------------------------------------------------------------- one call

  function ProbesLeft(g: Gate, key: Key): nat {
    if key in g.remaining then g.remaining[key] else 0
  }

  /** Whole seconds of the ten minutes after the last settlement that are still to run. */
  function PauseLeft(lastSettled: real, utc: real): (seconds: nat)
    ensures seconds > 0 ==> seconds as real <= lastSettled + COOLDOWN_SECONDS - utc
    ensures lastSettled + COOLDOWN_SECONDS - utc < seconds as real + 1.0
  {
    var left := lastSettled + COOLDOWN_SECONDS - utc;
    if left > 0.0 then left.Floor else 0
  }

  function EdgeHolds(c: Candidate, edgeFloor: real, config: Config): bool {
    var raw, cap := c.required + edgeFloor, c.required + config.ratchetCap;
    c.estimated >= if raw < cap then raw else cap
  }

  /** The stored end of the pause, or the one that this check would store. */
  function PauseEnd(g: Gate, key: Key, lastSettled: real, clock: Clock): Option<real> {
    if key in g.cooldownUntil then Some(g.cooldownUntil[key])
    else
      var left := PauseLeft(lastSettled, clock.utc);
      if left > 0 then Some(clock.monotonic + left as real) else None
  }

  predicate StillPaused(g: Gate, key: Key, lastSettled: real, clock: Clock) {
    var end := PauseEnd(g, key, lastSettled, clock);
    end.Some? && clock.monotonic < end.value
  }

  predicate Grants(g: Gate, key: Key, window: seq<Sample>, clock: Clock) {
    && Losing(window) && ProbesLeft(g, key) == 0 && key !in g.pending
    && !StillPaused(g, key, window[|window| - 1].settledAt, clock)
  }

  function Gated(g: Gate, key: Key, window: seq<Sample>, clock: Clock, edge: bool): (Gate, Verdict) {
    var verdict := if edge then Allowed else NoEdge;
    if window == [] then (g, verdict)
    else if !Losing(window) then (g.(remaining := g.remaining - {key}), verdict)
    else if ProbesLeft(g, key) > 0 then (g, verdict)
    else if key in g.pending then (g, Paused)
    else
      var last := window[|window| - 1].settledAt;
      if StillPaused(g, key, last, clock) then
        (g.(cooldownUntil := g.cooldownUntil[key := PauseEnd(g, key, last, clock).value]), Paused)
      else
        (g.(cooldownUntil := g.cooldownUntil - {key}, remaining := g.remaining[key := PROBE_ORDERS]), verdict)
  }

  function Allows(g: Gate, c: Candidate, config: Config, edgeFloor: real, clock: Clock): (Gate, Verdict) {
    if c.key.strategy == PAYOUT_ROUTED then (g, Allowed)
    else if !g.initialized then (g, CacheUnavailable)
    else Gated(g, c.key, Window(g, c.key, config, clock), clock, EdgeHolds(c, edgeFloor, config))
  }

  function Consume(g: Gate, key: Key): Gate {
    if key !in g.remaining then g
    else if g.remaining[key] <= 1 then g.(remaining := g.remaining - {key}, pending := g.pending + {key})
    else g.(remaining := g.remaining[key := g.remaining[key] - 1], pending := g.pending + {key})
  }

  predicate Knows(samples: seq<Sample>, order: string) {
    exists i :: 0 <= i < |samples| && samples[i].order == order
  }

  /** A settlement event for an order of this scope: appended once, oldest sample dropped at 30. */
  function Settle(g: Gate, key: Key, sample: Sample): Gate {
    var samples := Samples(g, key);
    if Knows(samples, sample.order) then g.(performance := g.performance[key := samples])
    else g.(performance := g.performance[key := Newest(samples + [sample], SAMPLES_KEPT)],
            pending := g.pending - {key})
  }

  /** What `notify_order_event` is told of an order. */
  datatype Notice =
    | Conflict                                   // or no order state
    | StillOpen
    | Rejected
    | Settled(result: Option<int>, applied: bool, observedAt: real)

  function Noticed(g: Gate, order: string, notice: Notice): Gate {
    if notice.Conflict? then g.(inflightKnown := false)
    else if !g.inflightKnown || notice.StillOpen? then g
    else
      var settled := if notice.Settled? && notice.result.Some? && notice.applied && order in g.scopes
                     then Settle(g, g.scopes[order], Sample(order, notice.result.value, notice.observedAt, None))
                     else g;
      settled.(scopes := g.scopes - {order})
  }

  class PerformanceGate {
    var initialized: bool
    var performance: map<Key, seq<Sample>>
    var resetAt: map<Key, real>
    var remaining: map<Key, nat>
    var pending: set<Key>
    var cooldownUntil: map<Key, real>
    var inflightKnown: bool
    var scopes: map<string, Key>

    function View(): Gate
      reads this
    {
      Gate(initialized, performance, resetAt, remaining, pending, cooldownUntil, inflightKnown, scopes)
    }

    method PerformanceAllows(c: Candidate, config: Config, edgeFloor: real, clock: Clock) returns (verdict: Verdict)
      modifies this`remaining, this`cooldownUntil
      ensures (View(), verdict) == Allows(old(View()), c, config, edgeFloor, clock)
    {
      var key := c.key;
      if key.strategy == PAYOUT_ROUTED {
        return Allowed;
      }
      if !initialized {
        return CacheUnavailable;
      }
      var window := Window(View(), key, config, clock);
      if window != [] {
        if |window| >= 10 && TotalPnl(window) <= 0 {
          var left := if key in remaining then remaining[key] else 0;
          if left <= 0 && key in pending {
            return Paused;
          }
          if left <= 0 && key !in pending {
            var utcLeft := PauseLeft(window[|window| - 1].settledAt, clock.utc);
            var until := if key in cooldownUntil then Some(cooldownUntil[key]) else None;
            if until.None? && utcLeft > 0 {
              until := Some(clock.monotonic + utcLeft as real);
              cooldownUntil := cooldownUntil[key := until.value];
            }
            if until.Some? && clock.monotonic < until.value {
              assert cooldownUntil == old(cooldownUntil)[key := until.value];
              return Paused;
            }
            cooldownUntil := cooldownUntil - {key};
            assert cooldownUntil == old(cooldownUntil) - {key};
            remaining := remaining[key := PROBE_ORDERS];
          }
        } else {
          remaining := remaining - {key};
        }
      }
      verdict := if EdgeHolds(c, edgeFloor, config) then Allowed else NoEdge;
    }

    method ConsumeProbe(key: Key)
      modifies this`remaining, this`pending
      ensures View() == Consume(old(View()), key)
    {
      if key !in remaining {
        return;
      }
      var left := remaining[key];
      if left <= 1 {
        remaining := remaining - {key};
      } else {
        remaining := remaining[key := left - 1];
      }
      pending := pending + {key};
    }

    method RecordSettlement(key: Key, sample: Sample)
      modifies this`performance, this`pending
      ensures View() == Settle(old(View()), key, sample)
    {
      var samples := if key in performance then performance[key] else [];
      performance := performance[key := samples];
      var known := false;
      for i := 0 to |samples|
        invariant known == Knows(samples[..i], sample.order)
      {
        assert Knows(samples[..i + 1], sample.order) <==>
               Knows(samples[..i], sample.order) || samples[i].order == sample.order by {
          assert samples[..i + 1] == samples[..i] + [samples[i]];
          if samples[i].order == sample.order {
            assert samples[..i + 1][i].order == sample.order;
          }
          if Knows(samples[..i], sample.order) {
            var j :| 0 <= j < i && samples[..i][j].order == sample.order;
            assert samples[..i + 1][j].order == sample.order;
          }
        }
        known := known || samples[i].order == sample.order;
      }
      assert samples[..|samples|] == samples;
      if !known {
        samples := Newest(samples + [sample], SAMPLES_KEPT);
        performance := performance[key := samples];
        pending := pending - {key};
      }
    }

    /** The part of `notify_order_event` that concerns the window. */
    method NotifyOrderEvent(order: string, notice: Notice)
      modifies this`performance, this`pending, this`inflightKnown, this`scopes
      ensures View() == Noticed(old(View()), order, notice)
    {
      hide Settle;
      if notice.Conflict? {
        inflightKnown := false;
        return;
      }
      if !inflightKnown || notice.StillOpen? {
        return;
      }
      if notice.Settled? && notice.result.Some? && notice.applied && order in scopes {
        SettleKeepsScopes(View(), scopes[order], Sample(order, notice.result.value, notice.observedAt, None));
        RecordSettlement(scopes[order], Sample(order, notice.result.value, notice.observedAt, None));
      }
      scopes := scopes - {order};
    }
  }

  lemma SettleKeepsScopes(g: Gate, key: Key, sample: Sample)
    ensures Settle(g, key, sample) == g.(performance := Settle(g, key, sample).performance,
                                         pending := Settle(g, key, sample).pending)
  {
    hide Newest, Knows, Samples;
  }

  // ---------------------------------------------------------------- whole runs

  /** `Order`: an order of that key was submitted and not rejected at dispatch, so that its probe was
      consumed. `Escaped`: one was written, but its submission raised, and no probe was consumed. */
  datatype Event =
    | NewRound
    | Check(candidate: Candidate, config: Config, edgeFloor: real, clock: Clock)
    | Order(key: Key, order: string)
    | Escaped(key: Key)
    | OrderEvent(order: string, notice: Notice)
    | Reload(performance: Option<map<Key, seq<Sample>>>, scopes: map<string, Key>)

  /** The stored end of a pause and the clocks when it was stored. */
  datatype Pause = Pause(end: real, setAt: Clock)

  /** What happened to the key under study. A grant records the probe and pause it found, and the
      settlement its pause was measured from. */
  datatype Mark = Granted(pending: bool, pause: Option<Pause>, basis: real, clock: Clock) | Ordered | Uncounted

  datatype State = State(gate: Gate, allowed: set<Key>, log: seq<Mark>, basis: real, setAt: Clock)

  /** The settlement the pause in force is measured from. */
  function BasisAfter(s: State, k: Key, window: seq<Sample>): real
    requires window != []
  {
    if k in s.gate.cooldownUntil then s.basis else window[|window| - 1].settledAt
  }

  function PauseFound(s: State, k: Key): Option<Pause> {
    if k in s.gate.cooldownUntil then Some(Pause(s.gate.cooldownUntil[k], s.setAt)) else None
  }

  function CheckKey(s: State, k: Key, e: Event): State
    requires e.Check?
  {
    var (gate, verdict) := Allows(s.gate, e.candidate, e.config, e.edgeFloor, e.clock);
    var window := Window(s.gate, k, e.config, e.clock);
    var mine := e.candidate.key == k && k.strategy != PAYOUT_ROUTED && s.gate.initialized && Losing(window);
    State(gate,
          if verdict == Allowed then s.allowed + {e.candidate.key} else s.allowed,
          if mine && Grants(s.gate, k, window, e.clock)
          then s.log + [Granted(k in s.gate.pending, PauseFound(s, k), BasisAfter(s, k, window), e.clock)]
          else s.log,
          if mine then BasisAfter(s, k, window) else s.basis,
          if k in s.gate.cooldownUntil then s.setAt else e.clock)
  }

  function Next(s: State, k: Key, e: Event): State {
    match e
    case NewRound => s.(allowed := {})
    case Check(_, _, _, _) => CheckKey(s, k, e)
    case Order(key, order) =>
      if key !in s.allowed then s
      else
        var known := if s.gate.inflightKnown then s.gate.(scopes := s.gate.scopes[order := key]) else s.gate;
        s.(gate := Consume(known, key), allowed := {}, log := if key == k then s.log + [Ordered] else s.log)
    case Escaped(key) =>
      if key !in s.allowed then s
      else s.(allowed := {}, log := if key == k then s.log + [Uncounted] else s.log)
    case OrderEvent(order, notice) => s.(gate := Noticed(s.gate, order, notice))
    case Reload(performance, scopes) =>
      s.(gate := if performance.Some?
                 then s.gate.(performance := performance.value, initialized := true,
                              inflightKnown := true, scopes := scopes)
                 else s.gate.(initialized := false, inflightKnown := false))
  }

  function Run(s: State, k: Key, events: seq<Event>): State {
    if events == [] then s else Next(Run(s, k, events[..|events| - 1]), k, events[|events| - 1])
  }

  /** Every check of the key in this stretch of the run sees a losing window. */
  predicate StaysLosing(s: State, k: Key, events: seq<Event>) {
    events == [] ||
    (var before := Run(s, k, events[..|events| - 1]);
     var e := events[|events| - 1];
     && StaysLosing(s, k, events[..|events| - 1])
     && (e.Check? && e.candidate.key == k && before.gate.initialized ==>
           Losing(Window(before.gate, k, e.config, e.clock))))
  }

  function Start(g: Gate): State {
    State(g, {}, [], 0.0, Clock(0.0, 0.0, 0.0))
  }

  // ---------------------------------------------------------------- the probe budget

  /** How many of the marks are of that kind. */
  function Count(log: seq<Mark>, mark: Mark): nat {
    if log == [] then 0 else Count(log[..|log| - 1], mark) + if log[|log| - 1] == mark then 1 else 0
  }

  /** Counted orders since the last grant, or since the start when there was none. */
  function TrailingOrders(log: seq<Mark>): nat {
    if log == [] || log[|log| - 1].Granted? then 0
    else TrailingOrders(log[..|log| - 1]) + if log[|log| - 1].Ordered? then 1 else 0
  }

  predicate HasGrant(log: seq<Mark>) {
    exists i :: 0 <= i < |log| && log[i].Granted?
  }

  predicate NoGrant(log: seq<Mark>) {
    forall m :: 0 <= m < |log| ==> !log[m].Granted?
  }

  /** Between two consecutive grants lie exactly ten counted orders. */
  ghost predicate TenApart(log: seq<Mark>) {
    forall i, j :: 0 <= i < j < |log| && ConsecutiveGrants(log, i, j) ==> Count(log[i + 1..j], Ordered) == PROBE_ORDERS
  }

  predicate ConsecutiveGrants(log: seq<Mark>, i: nat, j: nat)
    requires i < j < |log|
  {
    log[i].Granted? && log[j].Granted? && NoGrant(log[i + 1..j])
  }

  ghost predicate BudgetInv(s: State, k: Key, initially: nat) {
    && (k in s.gate.remaining ==> 1 <= s.gate.remaining[k] <= PROBE_ORDERS)
    && (k in s.allowed ==> k in s.gate.remaining)
    && TrailingOrders(s.log) + ProbesLeft(s.gate, k) == (if HasGrant(s.log) then PROBE_ORDERS else initially)
    && TenApart(s.log)
  }

  /** After the last grant the counted orders are the trailing ones. */
  lemma {:induction false} TrailingIsCount(log: seq<Mark>, i: nat)
    requires i < |log| && log[i].Granted? && NoGrant(log[i + 1..])
    ensures Count(log[i + 1..], Ordered) == TrailingOrders(log)
  {
    var n := |log| - 1;
    if i < n {
      assert log[i + 1..][n - i - 1] == log[n];
      assert log[i + 1..][..n - i - 1] == log[..n][i + 1..];
      TrailingIsCount(log[..n], i);
    }
  }

  lemma ConsecutiveBefore(log: seq<Mark>, mark: Mark, i: nat, j: nat)
    requires i < j < |log|
    ensures ConsecutiveGrants(log + [mark], i, j) <==> ConsecutiveGrants(log, i, j)
    ensures (log + [mark])[i + 1..j] == log[i + 1..j]
  {
  }

  lemma OrderExtends(log: seq<Mark>, mark: Mark)
    requires !mark.Granted?
    ensures TrailingOrders(log + [mark]) == TrailingOrders(log) + if mark.Ordered? then 1 else 0
    ensures HasGrant(log + [mark]) == HasGrant(log)
    ensures TenApart(log) ==> TenApart(log + [mark])
  {
    var longer := log + [mark];
    assert longer[..|longer| - 1] == log;
    assert forall i :: 0 <= i < |log| ==> longer[i] == log[i];
    hide Count;
    forall i, j | 0 <= i < j < |log|
      ensures ConsecutiveGrants(longer, i, j) <==> ConsecutiveGrants(log, i, j)
      ensures longer[i + 1..j] == log[i + 1..j]
    {
      ConsecutiveBefore(log, mark, i, j);
    }
  }

  lemma GrantExtends(log: seq<Mark>, g: Mark)
    requires g.Granted? && TenApart(log)
    requires HasGrant(log) ==> TrailingOrders(log) == PROBE_ORDERS
    ensures TrailingOrders(log + [g]) == 0 && HasGrant(log + [g]) && TenApart(log + [g])
  {
    var longer := log + [g];
    assert longer[|log|].Granted?;
    hide Count;
    forall i, j | 0 <= i < j < |longer| && ConsecutiveGrants(longer, i, j)
      ensures Count(longer[i + 1..j], Ordered) == PROBE_ORDERS
    {
      if j < |log| {
        ConsecutiveBefore(log, g, i, j);
      } else {
        assert longer[i + 1..j] == log[i + 1..];
        assert log[i].Granted?;
        TrailingIsCount(log, i);
      }
    }
  }

  /** What a check changes of the probes of a key, on a losing window. */
  lemma GatedMovesProbes(g: Gate, k: Key, window: seq<Sample>, clock: Clock, edge: bool)
    requires Losing(window)
    ensures var (after, verdict) := Gated(g, k, window, clock, edge);
            && after.remaining == (if Grants(g, k, window, clock) then g.remaining[k := PROBE_ORDERS] else g.remaining)
            && (verdict == Allowed ==> ProbesLeft(after, k) > 0)
            && (Grants(g, k, window, clock) ==> ProbesLeft(g, k) == 0)
  {
  }

  lemma GatedLeavesOthers(g: Gate, key: Key, window: seq<Sample>, clock: Clock, edge: bool, k: Key)
    requires k != key
    ensures Get(Gated(g, key, window, clock, edge).0.remaining, k) == Get(g.remaining, k)
    ensures Get(Gated(g, key, window, clock, edge).0.cooldownUntil, k) == Get(g.cooldownUntil, k)
  {
    GetElsewhere(g.remaining, key, PROBE_ORDERS, k);
    if window != [] {
      var end := PauseEnd(g, key, window[|window| - 1].settledAt, clock);
      GetElsewhere(g.cooldownUntil, key, if end.Some? then end.value else 0.0, k);
    }
    hide PauseEnd, StillPaused, Losing, ProbesLeft, Get;
  }

  lemma GetElsewhere<V>(m: map<Key, V>, key: Key, value: V, k: Key)
    requires k != key
    ensures Get(m[key := value], k) == Get(m, k) == Get(m - {key}, k)
  {
  }

  /** This check grants probes to the key under study. */
  predicate GrantsNow(s: State, k: Key, e: Event)
    requires e.Check?
  {
    e.candidate.key == k && s.gate.initialized && Grants(s.gate, k, Window(s.gate, k, e.config, e.clock), e.clock)
  }

  lemma CheckMovesProbes(s: State, k: Key, e: Event)
    requires k.strategy != PAYOUT_ROUTED && e.Check?
    requires e.candidate.key == k && s.gate.initialized ==> Losing(Window(s.gate, k, e.config, e.clock))
    ensures var next := Next(s, k, e);
            && Get(next.gate.remaining, k) ==
               (if GrantsNow(s, k, e) then Some(PROBE_ORDERS) else Get(s.gate.remaining, k))
            && (k in next.allowed ==> k in s.allowed || k in next.gate.remaining)
            && (GrantsNow(s, k, e) ==>
                  ProbesLeft(s.gate, k) == 0 && next.log[..|next.log| - 1] == s.log && next.log[|s.log|].Granted?)
            && (!GrantsNow(s, k, e) ==> next.log == s.log)
  {
    var window := Window(s.gate, e.candidate.key, e.config, e.clock);
    var edge := EdgeHolds(e.candidate, e.edgeFloor, e.config);
    if e.candidate.key == k {
      if s.gate.initialized {
        GatedMovesProbes(s.gate, k, window, e.clock, edge);
      }
    } else {
      GatedLeavesOthers(s.gate, e.candidate.key, window, e.clock, edge, k);
    }
    hide Gated, Window, Losing, Grants, EdgeHolds;
  }

  lemma CheckKeepsBudget(s: State, k: Key, e: Event, initially: nat)
    requires BudgetInv(s, k, initially) && k.strategy != PAYOUT_ROUTED && e.Check?
    requires e.candidate.key == k && s.gate.initialized ==> Losing(Window(s.gate, k, e.config, e.clock))
    ensures BudgetInv(Next(s, k, e), k, initially)
  {
    CheckMovesProbes(s, k, e);
    hide Next, GrantsNow, TenApart, TrailingOrders, HasGrant;
    if GrantsNow(s, k, e) {
      var next := Next(s, k, e);
      assert next.log == s.log + [next.log[|s.log|]];
      GrantExtends(s.log, next.log[|s.log|]);
    }
  }

  lemma NoticeLeavesProbes(g: Gate, order: string, notice: Notice)
    ensures Noticed(g, order, notice).remaining == g.remaining
    ensures Noticed(g, order, notice).cooldownUntil == g.cooldownUntil
  {
    hide Newest, Knows, Samples;
  }

  /** One probe less for the key; the others keep theirs. */
  lemma ConsumeMovesProbes(g: Gate, k: Key)
    requires k in g.remaining && g.remaining[k] >= 1
    ensures var after := Consume(g, k);
            && ProbesLeft(after, k) == ProbesLeft(g, k) - 1
            && (k in after.remaining ==> after.remaining[k] >= 1)
  {
  }

  lemma OrderKeepsBudget(s: State, k: Key, e: Event, initially: nat)
    requires BudgetInv(s, k, initially) && e.Order? && e.key in s.allowed
    ensures BudgetInv(Next(s, k, e), k, initially)
  {
    var known := if s.gate.inflightKnown then s.gate.(scopes := s.gate.scopes[e.order := e.key]) else s.gate;
    if e.key == k {
      OrderExtends(s.log, Ordered);
      ConsumeMovesProbes(known, k);
    } else {
      ConsumeLeavesOthers(known, e.key, k);
    }
    hide TenApart, TrailingOrders, HasGrant, Consume;
  }

  lemma ConsumeLeavesOthers(g: Gate, key: Key, k: Key)
    requires k != key
    ensures Get(Consume(g, key).remaining, k) == Get(g.remaining, k)
  {
    GetElsewhere(g.remaining, key, if key in g.remaining && g.remaining[key] > 1 then g.remaining[key] - 1 else 0, k);
    hide Get;
  }

  lemma EscapeKeepsBudget(s: State, k: Key, e: Event, initially: nat)
    requires BudgetInv(s, k, initially) && e.Escaped?
    ensures BudgetInv(Next(s, k, e), k, initially)
  {
    OrderExtends(s.log, Uncounted);
    hide TenApart, TrailingOrders, HasGrant;
  }

  lemma NextKeepsBudget(s: State, k: Key, e: Event, initially: nat)
    requires BudgetInv(s, k, initially) && k.strategy != PAYOUT_ROUTED
    requires e.Check? && e.candidate.key == k && s.gate.initialized ==> Losing(Window(s.gate, k, e.config, e.clock))
    ensures BudgetInv(Next(s, k, e), k, initially)
  {
    hide TenApart, TrailingOrders, HasGrant, CheckKey, Noticed, Window, Consume;
    if e.Check? {
      CheckKeepsBudget(s, k, e, initially);
    } else if e.Order? && e.key in s.allowed {
      OrderKeepsBudget(s, k, e, initially);
    } else if e.Escaped? {
      EscapeKeepsBudget(s, k, e, initially);
    } else if e.OrderEvent? {
      NoticeLeavesProbes(s.gate, e.order, e.notice);
    }
  }

  lemma {:induction false} RunKeepsBudget(g: Gate, k: Key, events: seq<Event>)
    requires k.strategy != PAYOUT_ROUTED
    requires k in g.remaining ==> 1 <= g.remaining[k] <= PROBE_ORDERS
    requires StaysLosing(Start(g), k, events)
    ensures BudgetInv(Run(Start(g), k, events), k, ProbesLeft(g, k))
  {
    if events != [] {
      var earlier := events[..|events| - 1];
      RunKeepsBudget(g, k, earlier);
      NextKeepsBudget(Run(Start(g), k, earlier), k, events[|events| - 1], ProbesLeft(g, k));
    }
  }

  lemma {:induction false} OrdersAreOfTwoKinds(log: seq<Mark>)
    requires NoGrant(log)
    ensures |log| == Count(log, Ordered) + Count(log, Uncounted)
  {
    if log != [] {
      assert !log[|log| - 1].Granted?;
      OrdersAreOfTwoKinds(log[..|log| - 1]);
    }
  }

  /** While the window of a key stays losing: the orders written between two consecutive probe grants
      are exactly ten more than the submissions that raised after writing, so ten if none did; never
      more than ten counted ones follow the last grant; and before the first only the probes left over
      at the start can be used. */
  lemma {:induction false} TenOrdersBetweenGrants(g: Gate, k: Key, events: seq<Event>)
    requires k.strategy != PAYOUT_ROUTED
    requires k in g.remaining ==> 1 <= g.remaining[k] <= PROBE_ORDERS
    requires StaysLosing(Start(g), k, events)
    ensures var log := Run(Start(g), k, events).log;
            && (forall i, j :: 0 <= i < j < |log| && ConsecutiveGrants(log, i, j) ==>
                  |log[i + 1..j]| == PROBE_ORDERS + Count(log[i + 1..j], Uncounted))
            && TrailingOrders(log) <= (if HasGrant(log) then PROBE_ORDERS else ProbesLeft(g, k))
  {
    RunKeepsBudget(g, k, events);
    hide Run;
    var log := Run(Start(g), k, events).log;
    forall i, j | 0 <= i < j < |log| && ConsecutiveGrants(log, i, j)
      ensures |log[i + 1..j]| == PROBE_ORDERS + Count(log[i + 1..j], Uncounted)
    {
      OrdersAreOfTwoKinds(log[i + 1..j]);
    }
  }

  // ---------------------------------------------------------------- orders that use no probe

  /** One evaluation of a key that still has probes: allowed, written, raised; and the order settles, but
      its scope was never recorded. */
  function EscapingRound(check: Event, order: string, notice: Notice): seq<Event>
    requires check.Check?
  {
    [NewRound, check, Escaped(check.candidate.key), OrderEvent(order, notice)]
  }

  function EscapingRounds(check: Event, orders: nat -> string, notice: Notice, n: nat): seq<Event>
    requires check.Check?
  {
    if n == 0 then []
    else EscapingRounds(check, orders, notice, n - 1) + EscapingRound(check, orders(n - 1), notice)
  }

  function Uncounteds(n: nat): seq<Mark> {
    seq(n, _ => Uncounted)
  }

  /** The key has probes left, a losing window and the edge for this check, and nothing is known of the order. */
  predicate CanEscape(g: Gate, check: Event, order: string, notice: Notice)
    requires check.Check?
  {
    var key := check.candidate.key;
    && key.strategy != PAYOUT_ROUTED && g.initialized && g.inflightKnown
    && ProbesLeft(g, key) > 0 && Losing(Window(g, key, check.config, check.clock))
    && EdgeHolds(check.candidate, check.edgeFloor, check.config)
    && order !in g.scopes && notice.Settled?
  }

  lemma EscapingCheck(s: State, check: Event, order: string, notice: Notice)
    requires check.Check? && CanEscape(s.gate, check, order, notice)
    ensures var k := check.candidate.key;
            var next := Next(s, k, check);
            next.gate == s.gate && next.log == s.log && k in next.allowed
  {
    hide Window, Losing, EdgeHolds, StillPaused, PauseEnd;
  }

  lemma RunsOne(s: State, k: Key, events: seq<Event>, e: Event)
    ensures Run(s, k, events + [e]) == Next(Run(s, k, events), k, e)
    ensures StaysLosing(s, k, events + [e]) <==>
            && StaysLosing(s, k, events)
            && (e.Check? && e.candidate.key == k && Run(s, k, events).gate.initialized ==>
                  Losing(Window(Run(s, k, events).gate, k, e.config, e.clock)))
  {
    assert (events + [e])[..|events|] == events;
  }

  lemma EscapingRoundRuns(s: State, before: seq<Event>, check: Event, order: string, notice: Notice)
    requires check.Check? && CanEscape(Run(s, check.candidate.key, before).gate, check, order, notice)
    requires StaysLosing(s, check.candidate.key, before)
    ensures var k := check.candidate.key;
            var events := before + EscapingRound(check, order, notice);
            && StaysLosing(s, k, events)
            && Run(s, k, events).gate == Run(s, k, before).gate
            && Run(s, k, events).log == Run(s, k, before).log + [Uncounted]
  {
    hide Run, StaysLosing, CanEscape, CheckKey, Window, Losing;
    var k := check.candidate.key;
    var e0, e1 := before + [NewRound], before + [NewRound] + [check];
    var e2 := e1 + [Escaped(k)];
    RunsOne(s, k, before, NewRound);
    RunsOne(s, k, e0, check);
    EscapingCheck(Run(s, k, e0), check, order, notice);
    EscapeIsLosing(Run(s, k, e0).gate, check, order, notice);
    RunsOne(s, k, e1, Escaped(k));
    RunsOne(s, k, e2, OrderEvent(order, notice));
    UnknownOrderChangesNothing(Run(s, k, e2).gate, check, order, notice);
    assert before + EscapingRound(check, order, notice) == e2 + [OrderEvent(order, notice)];
  }

  lemma EscapeIsLosing(g: Gate, check: Event, order: string, notice: Notice)
    requires check.Check? && CanEscape(g, check, order, notice)
    ensures Losing(Window(g, check.candidate.key, check.config, check.clock))
  {
  }

  lemma UnknownOrderChangesNothing(g: Gate, check: Event, order: string, notice: Notice)
    requires check.Check? && CanEscape(g, check, order, notice)
    ensures Noticed(g, order, notice) == g
  {
    assert g.scopes - {order} == g.scopes;
  }

  lemma OneMoreUncounted(log: seq<Mark>, n: nat)
    requires n > 0
    ensures log + Uncounteds(n - 1) + [Uncounted] == log + Uncounteds(n)
  {
  }

  /** So the excess has no bound: with probes left, however many submissions in a row raise after
      writing, each leaves the gate as it was and the key allowed again. */
  lemma {:induction false} EscapesAreUnbounded(s: State, check: Event, orders: nat -> string, notice: Notice, n: nat)
    requires check.Check? && forall i :: 0 <= i < n ==> CanEscape(s.gate, check, orders(i), notice)
    ensures var k := check.candidate.key;
            var events := EscapingRounds(check, orders, notice, n);
            && StaysLosing(s, k, events)
            && Run(s, k, events).gate == s.gate
            && Run(s, k, events).log == s.log + Uncounteds(n)
  {
    if n == 0 {
      assert s.log + Uncounteds(0) == s.log;
    } else {
      EscapesAreUnbounded(s, check, orders, notice, n - 1);
      OneMoreUncounted(s.log, n);
      hide Run, StaysLosing, CanEscape, EscapingRound, Uncounteds, Next;
      var before := EscapingRounds(check, orders, notice, n - 1);
      assert CanEscape(s.gate, check, orders(n - 1), notice);
      EscapingRoundRuns(s, before, check, orders(n - 1), notice);
    }
  }

  // ---------------------------------------------------------------- the window of samples

  /** At most 30 samples, no order twice. */
  predicate Tidy(samples: seq<Sample>) {
    |samples| <= SAMPLES_KEPT && forall i, j :: 0 <= i < j < |samples| ==> samples[i].order != samples[j].order
  }

  predicate AllTidy(performance: map<Key, seq<Sample>>) {
    forall k :: k in performance ==> Tidy(performance[k])
  }

  predicate ReloadsTidy(events: seq<Event>) {
    forall i :: 0 <= i < |events| && events[i].Reload? && events[i].performance.Some? ==>
      AllTidy(events[i].performance.value)
  }

  lemma AppendKeepsTidy(samples: seq<Sample>, sample: Sample)
    requires Tidy(samples) && !Knows(samples, sample.order)
    ensures Tidy(Newest(samples + [sample], SAMPLES_KEPT))
    ensures Knows(Newest(samples + [sample], SAMPLES_KEPT), sample.order)
  {
    var all := samples + [sample];
    assert forall i :: 0 <= i < |samples| ==> all[i].order == samples[i].order != sample.order;
    var kept := Newest(all, SAMPLES_KEPT);
    assert kept[|kept| - 1] == sample;
  }

  /** After a settlement its order is in the window of its key; every window stays tidy. */
  lemma SettleKeepsTidy(g: Gate, key: Key, sample: Sample)
    requires AllTidy(g.performance)
    ensures AllTidy(Settle(g, key, sample).performance)
    ensures Knows(Samples(Settle(g, key, sample), key), sample.order)
  {
    hide Newest, Knows;
    if !Knows(Samples(g, key), sample.order) {
      AppendKeepsTidy(Samples(g, key), sample);
    }
  }

  lemma AllowsKeepsWindows(g: Gate, c: Candidate, config: Config, edgeFloor: real, clock: Clock)
    ensures Allows(g, c, config, edgeFloor, clock).0.performance == g.performance
  {
    hide Window, Losing, StillPaused, PauseEnd, EdgeHolds, ProbesLeft;
  }

  lemma ConsumeKeepsWindows(g: Gate, key: Key)
    ensures Consume(g, key).performance == g.performance
  {
  }

  lemma OthersKeepWindows(s: State, k: Key, e: Event)
    requires !e.OrderEvent? && !e.Reload?
    ensures Next(s, k, e).gate.performance == s.gate.performance
  {
    if e.Check? {
      AllowsKeepsWindows(s.gate, e.candidate, e.config, e.edgeFloor, e.clock);
    } else if e.Order? {
      var known := if s.gate.inflightKnown then s.gate.(scopes := s.gate.scopes[e.order := e.key]) else s.gate;
      ConsumeKeepsWindows(known, e.key);
    }
    hide Allows, Consume, Window, Losing, Noticed, Grants;
  }

  lemma NextKeepsTidy(s: State, k: Key, e: Event)
    requires AllTidy(s.gate.performance)
    requires e.Reload? && e.performance.Some? ==> AllTidy(e.performance.value)
    ensures AllTidy(Next(s, k, e).gate.performance)
  {
    hide AllTidy, Settle, CheckKey, Consume;
    if e.OrderEvent? {
      if e.notice.Settled? && e.notice.result.Some? && e.order in s.gate.scopes {
        SettleKeepsTidy(s.gate, s.gate.scopes[e.order],
                        Sample(e.order, e.notice.result.value, e.notice.observedAt, None));
      }
    } else if !e.Reload? {
      OthersKeepWindows(s, k, e);
    }
  }

  /** In every run, if the windows a reload brings are tidy, all windows are: at most 30 samples and no
      order twice, whatever settlements are reported and how often. */
  lemma {:induction false} WindowsStayTidy(g: Gate, k: Key, events: seq<Event>)
    requires AllTidy(g.performance) && ReloadsTidy(events)
    ensures AllTidy(Run(Start(g), k, events).gate.performance)
  {
    if events != [] {
      var last := |events| - 1;
      assert ReloadsTidy(events[..last]);
      WindowsStayTidy(g, k, events[..last]);
      assert events[last].Reload? && events[last].performance.Some? ==> AllTidy(events[last].performance.value);
      hide AllTidy, Next;
      NextKeepsTidy(Run(Start(g), k, events[..last]), k, events[last]);
    }
  }

  // ---------------------------------------------------------------- when a grant is issued

  /** The stored pause is the rest of the ten minutes as UTC showed it when the pause was stored; and
      every grant so far found no probe pending and either a stored pause that had run out on the
      monotonic clock, or none and less than a second of the ten minutes left on the UTC clock. */
  ghost predicate PauseInv(s: State, k: Key) {
    && (k in s.gate.cooldownUntil ==>
          s.gate.cooldownUntil[k] == s.setAt.monotonic + PauseLeft(s.basis, s.setAt.utc) as real)
    && (forall i :: 0 <= i < |s.log| && s.log[i].Granted? ==> WaitedOut(s.log[i]))
  }

  predicate WaitedOut(grant: Mark)
    requires grant.Granted?
  {
    && !grant.pending
    && (grant.pause.None? ==> grant.clock.utc > grant.basis + COOLDOWN_SECONDS - 1.0)
    && (grant.pause.Some? ==>
          var pause := grant.pause.value;
          && pause.end == pause.setAt.monotonic + PauseLeft(grant.basis, pause.setAt.utc) as real
          && grant.clock.monotonic >= pause.end)
  }

  lemma GatedKeepsPause(g: Gate, k: Key, window: seq<Sample>, clock: Clock, edge: bool)
    requires Losing(window)
    ensures var after := Gated(g, k, window, clock, edge).0;
            var last := window[|window| - 1].settledAt;
            && (k in after.cooldownUntil && k in g.cooldownUntil ==> after.cooldownUntil[k] == g.cooldownUntil[k])
            && (k in after.cooldownUntil && k !in g.cooldownUntil ==>
                  after.cooldownUntil[k] == clock.monotonic + PauseLeft(last, clock.utc) as real)
            && (Grants(g, k, window, clock) ==>
                  && k !in g.pending
                  && (k in g.cooldownUntil ==> g.cooldownUntil[k] <= clock.monotonic)
                  && (k !in g.cooldownUntil ==> clock.utc > last + COOLDOWN_SECONDS - 1.0))
  {
  }

  lemma CheckKeepsPause(s: State, k: Key, e: Event)
    requires PauseInv(s, k) && e.Check?
    ensures PauseInv(Next(s, k, e), k)
  {
    var window := Window(s.gate, k, e.config, e.clock);
    if e.candidate.key == k && k.strategy != PAYOUT_ROUTED && s.gate.initialized && Losing(window) {
      GatedKeepsPause(s.gate, k, window, e.clock, EdgeHolds(e.candidate, e.edgeFloor, e.config));
      hide Gated, Window, Losing, Grants, EdgeHolds;
    } else {
      OtherChecksLeavePause(s, k, e);
      hide Next;
    }
  }

  lemma OtherChecksLeavePause(s: State, k: Key, e: Event)
    requires e.Check?
    requires e.candidate.key == k && k.strategy != PAYOUT_ROUTED && s.gate.initialized ==>
               !Losing(Window(s.gate, k, e.config, e.clock))
    ensures var next := Next(s, k, e);
            && next.log == s.log && next.basis == s.basis
            && (k in next.gate.cooldownUntil ==> next.setAt == s.setAt)
            && Get(next.gate.cooldownUntil, k) == Get(s.gate.cooldownUntil, k)
  {
  }

  lemma NextKeepsPause(s: State, k: Key, e: Event)
    requires PauseInv(s, k)
    ensures PauseInv(Next(s, k, e), k)
  {
    if e.Check? {
      CheckKeepsPause(s, k, e);
    } else {
      if e.OrderEvent? {
        NoticeLeavesProbes(s.gate, e.order, e.notice);
      }
      hide Noticed, WaitedOut, PauseLeft;
    }
  }

  /** In every run, whatever the windows and the two clocks do: a grant finds no probe pending; if a
      pause was stored, the part of the ten minutes that UTC showed as left when it was stored has
      passed on the monotonic clock; if none was, less than a second is left on the UTC clock. */
  lemma {:induction false} GrantsWaitOutThePause(g: Gate, k: Key, events: seq<Event>, i: nat)
    requires k !in g.cooldownUntil
    requires i < |Run(Start(g), k, events).log| && Run(Start(g), k, events).log[i].Granted?
    ensures WaitedOut(Run(Start(g), k, events).log[i])
  {
    RunKeepsPause(g, k, events);
  }

  lemma {:induction false} RunKeepsPause(g: Gate, k: Key, events: seq<Event>)
    requires k !in g.cooldownUntil
    ensures PauseInv(Run(Start(g), k, events), k)
  {
    if events != [] {
      RunKeepsPause(g, k, events[..|events| - 1]);
      NextKeepsPause(Run(Start(g), k, events[..|events| - 1]), k, events[|events| - 1]);
    }
  }

  /** Where the clocks did not move against each other between storing a pause and granting, that is
      more than 599 seconds after the settlement. */
  lemma SteadyClocksWaitTenMinutes(grant: Mark)
    requires grant.Granted? && WaitedOut(grant)
    requires grant.pause.Some? ==>
               var setAt := grant.pause.value.setAt;
               grant.clock.utc - grant.clock.monotonic == setAt.utc - setAt.monotonic
    ensures grant.clock.utc > grant.basis + COOLDOWN_SECONDS - 1.0
  {
  }

  // ---------------------------------------------------------------- what a notice records

  /** The notice reports, for the first time, the applied result of an order of this key. */
  predicate Records(g: Gate, order: string, notice: Notice, key: Key) {
    && g.inflightKnown && notice.Settled? && notice.result.Some? && notice.applied
    && order in g.scopes && g.scopes[order] == key && !Knows(Samples(g, key), order)
  }

  /** A notice adds a sample exactly when it reports, for the first time, the applied result of an order whose
      key is known, while the in-flight set is known; the thirty latest stay. Any notice of an end, but no
      other, makes the trader forget the order's key. */
  lemma NoticeRecordsExactly(g: Gate, order: string, notice: Notice, key: Key)
    ensures var after := Noticed(g, order, notice);
            var recorded := Records(g, order, notice, key);
            && Samples(after, key) ==
               (if !recorded then Samples(g, key)
                else
                  var all := Samples(g, key) + [Sample(order, notice.result.value, notice.observedAt, None)];
                  if |all| > 30 then all[|all| - 30..] else all)
            && (key in after.pending <==> key in g.pending && !recorded)
            && after.scopes.Keys == g.scopes.Keys -
               (if g.inflightKnown && (notice.Rejected? || notice.Settled?) then {order} else {})
            && after.inflightKnown == (g.inflightKnown && !notice.Conflict?)
  {
    hide Settle, Samples, Knows;
    if order in g.scopes && notice.Settled? && notice.result.Some? {
      var sample := Sample(order, notice.result.value, notice.observedAt, None);
      SettleRecords(g, g.scopes[order], sample, key);
      SettleKeepsScopes(g, g.scopes[order], sample);
    }
    ScopesDoNotMatter(g, order, notice, key);
  }

  lemma SettleRecords(g: Gate, scope: Key, sample: Sample, key: Key)
    ensures var after := Settle(g, scope, sample);
            var recorded := scope == key && !Knows(Samples(g, key), sample.order);
            && Samples(after, key) ==
               (if !recorded then Samples(g, key)
                else
                  var all := Samples(g, key) + [sample];
                  if |all| > 30 then all[|all| - 30..] else all)
            && (key in after.pending <==> key in g.pending && !recorded)
  {
    hide Knows;
  }

  lemma ScopesDoNotMatter(g: Gate, order: string, notice: Notice, key: Key)
    ensures Samples(g.(scopes := g.scopes - {order}), key) == Samples(g, key)
    ensures Samples(g.(inflightKnown := false), key) == Samples(g, key)
    ensures order in g.scopes && notice.Settled? && notice.result.Some? ==>
              var settled := Settle(g, g.scopes[order], Sample(order, notice.result.value, notice.observedAt, None));
              Samples(settled.(scopes := g.scopes - {order}), key) == Samples(settled, key)
  {
    hide Settle;
  }

  predicate NoneRecorded(s: State, k: Key, events: seq<Event>) {
    events == [] ||
    (var before, e := Run(s, k, events[..|events| - 1]), events[|events| - 1];
     && NoneRecorded(s, k, events[..|events| - 1])
     && !(e.OrderEvent? && Records(before.gate, e.order, e.notice, k)))
  }

  /** An order on probation holds its key back: until a result of the key is recorded it stays pending, whatever
      else happens, with at most the probes that were left, and nothing is granted; so once they are used up,
      every check of a losing window is refused. */
  lemma {:induction false} PendingHoldsBack(s: State, k: Key, order: string, events: seq<Event>)
    requires k in s.allowed && k in s.gate.remaining
    requires NoneRecorded(Next(s, k, Order(k, order)), k, events)
    ensures var ordered := Next(s, k, Order(k, order));
            var later := Run(ordered, k, events);
            && k in later.gate.pending
            && ProbesLeft(later.gate, k) <= ProbesLeft(ordered.gate, k)
            && (s.gate.remaining[k] > 0 ==> ProbesLeft(ordered.gate, k) == s.gate.remaining[k] - 1)
            && (ProbesLeft(later.gate, k) == 0 ==>
                  forall window, clock, edge :: Losing(window) ==>
                    Gated(later.gate, k, window, clock, edge) == (later.gate, Paused))
  {
    var ordered := Next(s, k, Order(k, order));
    if events == [] {
      hide Losing;
    } else {
      var before := Run(ordered, k, events[..|events| - 1]);
      PendingHoldsBack(s, k, order, events[..|events| - 1]);
      NextKeepsPending(before, k, events[|events| - 1]);
      hide Next, Losing, NoneRecorded;
    }
  }

  lemma NextKeepsPending(s: State, k: Key, e: Event)
    requires k in s.gate.pending && !(e.OrderEvent? && Records(s.gate, e.order, e.notice, k))
    ensures var next := Next(s, k, e).gate;
            k in next.pending && ProbesLeft(next, k) <= ProbesLeft(s.gate, k)
  {
    if e.Check? {
      CheckLeavesTheRest(s.gate, e.candidate, e.config, e.edgeFloor, e.clock);
      CheckGrantsNothing(s.gate, k, e.candidate, e.config, e.edgeFloor, e.clock);
      hide Allows, Window, Losing, Grants;
    } else if e.OrderEvent? {
      NoticeRecordsExactly(s.gate, e.order, e.notice, k);
      NoticeLeavesProbes(s.gate, e.order, e.notice);
      hide Noticed, Records;
    } else if e.Order? {
      hide Consume;
      var known := if s.gate.inflightKnown then s.gate.(scopes := s.gate.scopes[e.order := e.key]) else s.gate;
      ConsumeKeepsPending(known, e.key, k);
    }
  }

  lemma ConsumeKeepsPending(g: Gate, key: Key, k: Key)
    requires k in g.pending
    ensures k in Consume(g, key).pending && ProbesLeft(Consume(g, key), k) <= ProbesLeft(g, k)
  {
    if key == k {
      ConsumeNeverAdds(g, k);
    } else {
      ConsumeLeavesOthers(g, key, k);
    }
    ConsumeAddsPending(g, key);
    hide Consume;
  }

  lemma ConsumeNeverAdds(g: Gate, k: Key)
    ensures ProbesLeft(Consume(g, k), k) <= ProbesLeft(g, k)
  {
  }

  lemma ConsumeAddsPending(g: Gate, key: Key)
    ensures Consume(g, key).pending == g.pending + if key in g.remaining then {key} else {}
  {
    hide ProbesLeft;
  }

  lemma CheckGrantsNothing(g: Gate, k: Key, c: Candidate, config: Config, edgeFloor: real, clock: Clock)
    requires k in g.pending
    ensures ProbesLeft(Allows(g, c, config, edgeFloor, clock).0, k) <= ProbesLeft(g, k)
  {
    var window, edge := Window(g, c.key, config, clock), EdgeHolds(c, edgeFloor, config);
    if c.key == k {
      hide Window, Losing, PauseEnd, EdgeHolds;
    } else {
      GatedLeavesOthers(g, c.key, window, clock, edge, k);
      hide Window, Gated, EdgeHolds;
    }
  }

  /** From a conflict on, until a reload answers, no notice is recorded in any window and none is taken for
      the end of an order. */
  lemma {:induction false} ConflictStopsRecording(s: State, k: Key, order: string, events: seq<Event>)
    requires forall i :: 0 <= i < |events| ==> !(events[i].Reload? && events[i].performance.Some?)
    ensures var noticed := Next(s, k, OrderEvent(order, Conflict));
            var later := Run(noticed, k, events);
            && !later.gate.inflightKnown
            && later.gate.performance == s.gate.performance && later.gate.scopes == s.gate.scopes
            && s.gate.pending <= later.gate.pending
  {
    if events != [] {
      var noticed := Next(s, k, OrderEvent(order, Conflict));
      ConflictStopsRecording(s, k, order, events[..|events| - 1]);
      UnknownStays(Run(noticed, k, events[..|events| - 1]), k, events[|events| - 1]);
      hide Next;
    }
  }

  lemma UnknownStays(s: State, k: Key, e: Event)
    requires !s.gate.inflightKnown && !(e.Reload? && e.performance.Some?)
    ensures var next := Next(s, k, e).gate;
            && !next.inflightKnown && next.performance == s.gate.performance && next.scopes == s.gate.scopes
            && s.gate.pending <= next.pending
  {
    if e.Check? {
      CheckLeavesTheRest(s.gate, e.candidate, e.config, e.edgeFloor, e.clock);
      hide Allows, Window, Losing, Grants;
    }
  }

  lemma CheckLeavesTheRest(g: Gate, c: Candidate, config: Config, edgeFloor: real, clock: Clock)
    ensures var after := Allows(g, c, config, edgeFloor, clock).0;
            && after.inflightKnown == g.inflightKnown && after.performance == g.performance
            && after.scopes == g.scopes && after.pending == g.pending
  {
    hide Window, EdgeHolds, Gated;
    GatedLeavesTheRest(g, c.key, Window(g, c.key, config, clock), clock, EdgeHolds(c, edgeFloor, config));
  }

  lemma GatedLeavesTheRest(g: Gate, key: Key, window: seq<Sample>, clock: Clock, edge: bool)
    ensures var after := Gated(g, key, window, clock, edge).0;
            && after.inflightKnown == g.inflightKnown && after.performance == g.performance
            && after.scopes == g.scopes && after.pending == g.pending
  {
    hide Losing, ProbesLeft, PauseEnd, PauseLeft, Samples;
    if window != [] && Losing(window) && ProbesLeft(g, key) == 0 && key !in g.pending {
      var end := PauseEnd(g, key, window[|window| - 1].settledAt, clock);
      if StillPaused(g, key, window[|window| - 1].settledAt, clock) {
        assert Gated(g, key, window, clock, edge).0 == g.(cooldownUntil := g.cooldownUntil[key := end.value]);
      }
    }
  }
}
