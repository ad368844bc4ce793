/** Consumed signals of the auto-trader (apps/core/deriv_auto_trader.py): a bounded FIFO of
    evaluated keys and the per-pair epoch floor set when the operator re-arms the bot. */
module SignalMemory {
  import opened Optional

  const CAPACITY: nat := 512

  datatype Pair = Pair(symbol: string, strategy: string)

  datatype Signal = Signal(pair: Pair, epoch: int)

  function Elements<T>(xs: seq<T>): set<T> {
    set x | x in xs
  }

  predicate NoDuplicates<T(==)>(xs: seq<T>) {
    forall i, j :: 0 <= i < j < |xs| ==> xs[i] != xs[j]
  }

  // ---------------------------------------------------------------- one call

  /** The set and the list after `_remember_signal`. */
  function Remembered(keys: set<Signal>, order: seq<Signal>, key: Signal): (set<Signal>, seq<Signal>) {
    if key in keys then (keys, order)
    else
      var grown := order + [key];
      if |grown| > CAPACITY then (keys + {key} - {grown[0]}, grown[1..]) else (keys + {key}, grown)
  }

  /** The dictionary comprehension of `begin_new_run`: a later candidate overwrites an earlier one. */
  function Floors(candidates: seq<Signal>): map<Pair, int> {
    if candidates == [] then map[]
    else
      var last := candidates[|candidates| - 1];
      Floors(candidates[..|candidates| - 1])[last.pair := last.epoch]
  }

  predicate Passes(consumed: set<Signal>, floors: map<Pair, int>, s: Signal) {
    s !in consumed && s.epoch > if s.pair in floors then floors[s.pair] else -1
  }

  function Unevaluated(consumed: set<Signal>, floors: map<Pair, int>, candidates: seq<Signal>): (r: seq<Signal>)
    ensures forall s :: s in r <==> s in candidates && Passes(consumed, floors, s)
  {
    if candidates == [] then []
    else
      Unevaluated(consumed, floors, candidates[..|candidates| - 1])
      + if Passes(consumed, floors, candidates[|candidates| - 1]) then [candidates[|candidates| - 1]] else []
  }

  lemma FirstLeaves<T>(xs: seq<T>)
    requires xs != [] && NoDuplicates(xs)
    ensures Elements(xs[1..]) == Elements(xs) - {xs[0]}
  {
  }

  class Signals {
    var keys: set<Signal>
    var order: seq<Signal>
    var floors: map<Pair, int>

    ghost predicate Valid()
      reads this
    {
      keys == Elements(order) && NoDuplicates(order) && |order| <= CAPACITY
    }

    constructor ()
      ensures Valid() && order == [] && floors == map[]
    {
      keys, order, floors := {}, [], map[];
    }

    method Remember(key: Signal)
      requires Valid()
      modifies this`keys, this`order
      ensures Valid()
      ensures (keys, order) == Remembered(old(keys), old(order), key)
    {
      if key in keys {
        return;
      }
      keys := keys + {key};
      order := order + [key];
      if |order| > CAPACITY {
        var expired := order[0];
        FirstLeaves(order);
        order := order[1..];
        keys := keys - {expired};
      }
    }

    /** `visible` is None while there is no telemetry. */
    method BeginNewRun(visible: Option<seq<Signal>>)
      modifies this`floors
      ensures floors == if visible.None? then old(floors) else Floors(visible.value)
    {
      if visible.None? {
        return;
      }
      var candidates := visible.value;
      var next: map<Pair, int> := map[];
      for i := 0 to |candidates|
        invariant next == Floors(candidates[..i])
      {
        next := next[candidates[i].pair := candidates[i].epoch];
        assert candidates[..i + 1][..i] == candidates[..i];
      }
      assert candidates[..|candidates|] == candidates;
      floors := next;
    }

    method SelectUnevaluated(candidates: seq<Signal>) returns (r: seq<Signal>)
      ensures r == Unevaluated(keys, floors, candidates)
    {
      r := [];
      for i := 0 to |candidates|
        invariant r == Unevaluated(keys, floors, candidates[..i])
      {
        var s := candidates[i];
        if s !in keys && s.epoch > (if s.pair in floors then floors[s.pair] else -1) {
          r := r + [s];
        }
        assert candidates[..i + 1][..i] == candidates[..i];
      }
      assert candidates[..|candidates|] == candidates;
    }
  }

  // ---------------------------------------------------------------- whole runs

  /** The set and the FIFO together with every key ever inserted into them. */
  datatype Memory = Memory(keys: set<Signal>, order: seq<Signal>, history: seq<Signal>)

  function Insert(m: Memory, key: Signal): Memory {
    var (keys, order) := Remembered(m.keys, m.order, key);
    Memory(keys, order, if key in m.keys then m.history else m.history + [key])
  }

  function InsertAll(m: Memory, keys: seq<Signal>): Memory {
    if keys == [] then m else Insert(InsertAll(m, keys[..|keys| - 1]), keys[|keys| - 1])
  }

  /** A submitted signal: the stretch of history its round wrote, and how many re-arms had
      happened when its round filtered and when it submitted. */
  datatype Submission = Submission(signal: Signal, before: nat, after: nat, filteredAt: nat, doneAt: nat)

  /** An evaluation that has filtered its candidates and not finished yet. */
  datatype Round = Round(unevaluated: seq<Signal>, filteredAt: nat)

  datatype State = State(
    memory: Memory,
    rearms: seq<seq<Signal>>,
    round: Option<Round>,
    submissions: seq<Submission>)

  const INITIAL := State(Memory({}, [], []), [], None, [])

  /** `Finish`: the round remembers some of what passed its filter (all that were eligible, or the
      ones rejected on merit) and submits at most one of those. */
  datatype Step =
    | Rearm(candidates: seq<Signal>)
    | Filter(candidates: seq<Signal>)
    | Finish(remembered: seq<Signal>, winner: Option<Signal>)

  function CurrentFloors(s: State): map<Pair, int> {
    if s.rearms == [] then map[] else Floors(s.rearms[|s.rearms| - 1])
  }

  predicate CanFinish(s: State, remembered: seq<Signal>, winner: Option<Signal>) {
    && s.round.Some?
    && (forall x :: x in remembered ==> x in s.round.value.unevaluated)
    && (winner.Some? ==> winner.value in remembered)
  }

  function Next(s: State, step: Step): State {
    match step
    case Rearm(candidates) => s.(rearms := s.rearms + [candidates])
    case Filter(candidates) =>
      if s.round.Some? then s
      else s.(round := Some(Round(Unevaluated(s.memory.keys, CurrentFloors(s), candidates), |s.rearms|)))
    case Finish(remembered, winner) =>
      if CanFinish(s, remembered, winner) then FinishRound(s, remembered, winner) else s
  }

  function FinishRound(s: State, remembered: seq<Signal>, winner: Option<Signal>): State
    requires CanFinish(s, remembered, winner)
  {
    var m := InsertAll(s.memory, remembered);
    s.(memory := m, round := None,
       submissions :=
         if winner.None? then s.submissions
         else s.submissions
              + [Submission(winner.value, |s.memory.history|, |m.history|, s.round.value.filteredAt, |s.rearms|)])
  }

  function Run(steps: seq<Step>): State {
    if steps == [] then INITIAL else Next(Run(steps[..|steps| - 1]), steps[|steps| - 1])
  }

  // ---------------------------------------------------------------- the FIFO remembers the last 512

  /** No key enters again while one of the 512 insertions before is the same key. */
  ghost predicate Separated(history: seq<Signal>) {
    forall i, j :: 0 <= i < j < |history| && j - i <= CAPACITY ==> history[i] != history[j]
  }

  ghost predicate KeepsTheLatest(m: Memory) {
    && |m.order| == (if |m.history| < CAPACITY then |m.history| else CAPACITY)
    && m.order == m.history[|m.history| - |m.order|..]
    && m.keys == Elements(m.order)
    && Separated(m.history)
  }

  lemma LatestAreDistinct(m: Memory)
    requires KeepsTheLatest(m)
    ensures NoDuplicates(m.order) && |m.order| <= CAPACITY
  {
  }

  lemma InsertKeepsTheLatest(m: Memory, key: Signal)
    requires KeepsTheLatest(m)
    ensures KeepsTheLatest(Insert(m, key))
  {
    if key !in m.keys {
      var grown := m.history + [key];
      var d := |m.history| - |m.order|;
      forall i | 0 <= i < |m.history| && |m.history| - i <= CAPACITY ensures grown[i] != key {
        assert m.order[i - d] == m.history[i];
      }
      KeysFollow(m, key);
    }
  }

  /** The set loses exactly the key the list loses. */
  lemma KeysFollow(m: Memory, key: Signal)
    requires KeepsTheLatest(m) && key !in m.keys
    ensures Insert(m, key).keys == Elements(Insert(m, key).order)
  {
    LatestAreDistinct(m);
    hide KeepsTheLatest, Separated;
    assert NoDuplicates(m.order + [key]);
    FirstLeaves(m.order + [key]);
  }

  lemma {:induction false} InsertAllKeepsTheLatest(m: Memory, keys: seq<Signal>)
    requires KeepsTheLatest(m)
    ensures KeepsTheLatest(InsertAll(m, keys))
    ensures m.history <= InsertAll(m, keys).history
  {
    hide KeepsTheLatest, Remembered;
    HistoryGrows(m, keys);
    if keys != [] {
      InsertAllKeepsTheLatest(m, keys[..|keys| - 1]);
      InsertKeepsTheLatest(InsertAll(m, keys[..|keys| - 1]), keys[|keys| - 1]);
    }
  }

  lemma {:induction false} HistoryGrows(m: Memory, keys: seq<Signal>)
    ensures m.history <= InsertAll(m, keys).history
  {
    if keys != [] {
      HistoryGrows(m, keys[..|keys| - 1]);
    }
  }

  /** Every key a round remembers was either remembered already or is inserted by that round. */
  lemma {:induction false} InsertAllInserts(m: Memory, keys: seq<Signal>, key: Signal)
    requires key in keys && key !in m.keys
    ensures m.history <= InsertAll(m, keys).history
    ensures key in InsertAll(m, keys).history[|m.history|..]
  {
    hide Remembered;
    var front, last := keys[..|keys| - 1], keys[|keys| - 1];
    assert keys == front + [last];
    var earlier := InsertAll(m, front);
    HistoryGrows(m, front);
    HistoryGrows(m, keys);
    if key in front {
      InsertAllInserts(m, front, key);
      assert earlier.history[|m.history|..] <= InsertAll(m, keys).history[|m.history|..];
    } else {
      OnlyRememberedEnters(m, front, key);
      assert InsertAll(m, keys).history[|earlier.history|] == key;
    }
  }

  /** Only a remembered key can enter the FIFO. */
  lemma {:induction false} OnlyRememberedEnters(m: Memory, keys: seq<Signal>, key: Signal)
    requires key !in m.keys && key !in keys
    ensures key !in InsertAll(m, keys).keys
  {
    if keys != [] {
      OnlyRememberedEnters(m, keys[..|keys| - 1], key);
    }
  }

  /** Two insertions of one key lie more than 512 apart, with 512 other keys right after the first. */
  lemma RepeatsAreFarApart(history: seq<Signal>, i: nat, j: nat)
    requires Separated(history) && i < j < |history| && history[i] == history[j]
    ensures i + CAPACITY < j
    ensures |Elements(history[i + 1..j]) - {history[i]}| >= CAPACITY
  {
    var others := history[i + 1..i + 1 + CAPACITY];
    assert NoDuplicates(others);
    DistinctCount(others);
    assert Elements(others) <= Elements(history[i + 1..j]) - {history[i]} by {
      forall x | x in others ensures x in history[i + 1..j] && x != history[i] {
        var k :| 0 <= k < |others| && others[k] == x;
        assert x == history[i + 1 + k] == history[i + 1..j][k];
      }
    }
    SubsetCount(Elements(others), Elements(history[i + 1..j]) - {history[i]});
  }

  lemma {:induction false} DistinctCount<T>(xs: seq<T>)
    requires NoDuplicates(xs)
    ensures |Elements(xs)| == |xs|
  {
    if xs != [] {
      var rest, last := xs[..|xs| - 1], xs[|xs| - 1];
      DistinctCount(rest);
      hide NoDuplicates;
      assert xs == rest + [last];
      assert Elements(xs) == Elements(rest) + {last};
      LastIsNew(xs);
    }
  }

  lemma LastIsNew<T>(xs: seq<T>)
    requires xs != [] && NoDuplicates(xs)
    ensures xs[|xs| - 1] !in xs[..|xs| - 1]
  {
  }

  lemma SubsetCount<T>(a: set<T>, b: set<T>)
    requires a <= b
    ensures |a| <= |b|
  {
    assert b == a + (b - a);
  }

  // ---------------------------------------------------------------- the run invariant

  ghost predicate SubmissionHolds(history: seq<Signal>, rearms: seq<seq<Signal>>, sub: Submission) {
    && sub.before <= sub.after <= |history|
    && sub.signal in history[sub.before..sub.after]
    && sub.filteredAt <= sub.doneAt <= |rearms|
    && (sub.filteredAt > 0 ==> AboveFloor(rearms[sub.filteredAt - 1], sub.signal))
  }

  predicate AboveFloor(candidates: seq<Signal>, signal: Signal) {
    signal.pair in Floors(candidates) ==> signal.epoch > Floors(candidates)[signal.pair]
  }

  ghost predicate RoundHolds(consumed: set<Signal>, rearms: seq<seq<Signal>>, round: Round) {
    && round.filteredAt <= |rearms|
    && forall x :: x in round.unevaluated ==>
         && x !in consumed
         && (round.filteredAt > 0 ==> AboveFloor(rearms[round.filteredAt - 1], x))
  }

  /** Rounds run one after another; `bound` re-arms and `written` insertions came before any later round. */
  ghost predicate InSequence(subs: seq<Submission>, written: nat, bound: nat) {
    && (forall k :: 0 <= k < |subs| ==> subs[k].after <= written && subs[k].doneAt <= bound)
    && (forall a, b :: 0 <= a < b < |subs| ==>
          subs[a].after <= subs[b].before && subs[a].doneAt <= subs[b].filteredAt)
  }

  ghost predicate AllHold(s: State) {
    forall k :: 0 <= k < |s.submissions| ==> SubmissionHolds(s.memory.history, s.rearms, s.submissions[k])
  }

  ghost predicate Inv(s: State) {
    && KeepsTheLatest(s.memory)
    && (s.round.Some? ==> RoundHolds(s.memory.keys, s.rearms, s.round.value))
    && AllHold(s)
    && InSequence(s.submissions, |s.memory.history|,
                  if s.round.Some? then s.round.value.filteredAt else |s.rearms|)
  }

  lemma SubmissionsSurvive(s: State, next: State)
    requires AllHold(s)
    requires s.memory.history <= next.memory.history && s.rearms <= next.rearms
    ensures forall k :: 0 <= k < |s.submissions| ==>
              SubmissionHolds(next.memory.history, next.rearms, s.submissions[k])
  {
  }

  lemma FinishKeepsInv(s: State, remembered: seq<Signal>, winner: Option<Signal>)
    requires Inv(s) && CanFinish(s, remembered, winner)
    ensures Inv(FinishRound(s, remembered, winner))
  {
    if winner.Some? {
      SubmittingKeepsInv(s, remembered, winner.value);
    } else {
      RejectingKeepsInv(s, remembered);
    }
  }

  lemma SubmittingKeepsInv(s: State, remembered: seq<Signal>, winner: Signal)
    requires Inv(s) && CanFinish(s, remembered, Some(winner))
    ensures Inv(FinishRound(s, remembered, Some(winner)))
  {
    InsertAllKeepsTheLatest(s.memory, remembered);
    WinnerHolds(s, remembered, winner);
    InFlightIsOlder(s);
    SubmissionsSurvive(s, FinishRound(s, remembered, Some(winner)));
    hide InsertAll, KeepsTheLatest, SubmissionHolds, InSequence, RoundHolds;
    var next := FinishRound(s, remembered, Some(winner));
    InSequenceGrows(s.submissions, next.submissions[|s.submissions|], |s.memory.history|, s.round.value.filteredAt);
    NewestHolds(s.submissions, next);
  }

  lemma NewestHolds(before: seq<Submission>, next: State)
    requires |next.submissions| == |before| + 1 && before == next.submissions[..|before|]
    requires forall k :: 0 <= k < |before| ==> SubmissionHolds(next.memory.history, next.rearms, before[k])
    requires SubmissionHolds(next.memory.history, next.rearms, next.submissions[|before|])
    ensures AllHold(next)
  {
  }

  lemma InFlightIsOlder(s: State)
    requires Inv(s) && s.round.Some?
    ensures s.round.value.filteredAt <= |s.rearms|
  {
  }

  lemma RejectingKeepsInv(s: State, remembered: seq<Signal>)
    requires Inv(s) && CanFinish(s, remembered, None)
    ensures Inv(FinishRound(s, remembered, None))
  {
    InsertAllKeepsTheLatest(s.memory, remembered);
    InFlightIsOlder(s);
    hide InsertAll, KeepsTheLatest, SubmissionHolds, InSequence, RoundHolds;
    var next := FinishRound(s, remembered, None);
    SubmissionsSurvive(s, next);
    InSequenceRelaxes(s.submissions, |s.memory.history|, s.round.value.filteredAt, |next.memory.history|, |s.rearms|);
  }

  lemma InSequenceRelaxes(subs: seq<Submission>, written: nat, bound: nat, written': nat, bound': nat)
    requires InSequence(subs, written, bound) && written <= written' && bound <= bound'
    ensures InSequence(subs, written', bound')
  {
  }

  lemma WinnerHolds(s: State, remembered: seq<Signal>, winner: Signal)
    requires Inv(s) && CanFinish(s, remembered, Some(winner))
    ensures var m := InsertAll(s.memory, remembered);
            && s.memory.history <= m.history
            && SubmissionHolds(m.history, s.rearms,
                 Submission(winner, |s.memory.history|, |m.history|, s.round.value.filteredAt, |s.rearms|))
  {
    hide InsertAll, KeepsTheLatest, InSequence, AllHold;
    InsertAllInserts(s.memory, remembered, winner);
    SliceToEnd(InsertAll(s.memory, remembered).history, |s.memory.history|);
  }

  lemma SliceToEnd<T>(xs: seq<T>, from: nat)
    requires from <= |xs|
    ensures xs[from..|xs|] == xs[from..]
  {
  }

  lemma InSequenceGrows(subs: seq<Submission>, sub: Submission, written: nat, bound: nat)
    requires InSequence(subs, written, bound)
    requires sub.before == written <= sub.after && sub.filteredAt == bound <= sub.doneAt
    ensures InSequence(subs + [sub], sub.after, sub.doneAt)
  {
  }

  lemma RearmKeepsInv(s: State, candidates: seq<Signal>)
    requires Inv(s)
    ensures Inv(Next(s, Rearm(candidates)))
  {
  }

  lemma FilterKeepsInv(s: State, candidates: seq<Signal>)
    requires Inv(s)
    ensures Inv(Next(s, Filter(candidates)))
  {
    hide KeepsTheLatest, SubmissionHolds, Floors, Elements;
  }

  lemma {:induction false} RunKeepsInv(steps: seq<Step>)
    ensures Inv(Run(steps))
  {
    if steps != [] {
      var s := Run(steps[..|steps| - 1]);
      RunKeepsInv(steps[..|steps| - 1]);
      match steps[|steps| - 1]
      case Rearm(candidates) => RearmKeepsInv(s, candidates);
      case Filter(candidates) => FilterKeepsInv(s, candidates);
      case Finish(remembered, winner) =>
        if CanFinish(s, remembered, winner) {
          FinishKeepsInv(s, remembered, winner);
        }
    }
  }

  // ---------------------------------------------------------------- what the trader promises

  /** A signal is never submitted twice unless at least 512 other keys were remembered in between:
      the two submissions inserted it at positions `p` and `q` of the full history. */
  lemma {:induction false} NoEarlyResubmission(steps: seq<Step>, a: nat, b: nat) returns (p: nat, q: nat)
    requires a < b < |Run(steps).submissions|
    requires Run(steps).submissions[a].signal == Run(steps).submissions[b].signal
    ensures var s := Run(steps);
            var first, second := s.submissions[a], s.submissions[b];
            && first.before <= p < first.after <= second.before <= q < second.after <= |s.memory.history|
            && s.memory.history[p] == s.memory.history[q] == first.signal
            && |Elements(s.memory.history[p + 1..q]) - {first.signal}| >= CAPACITY
  {
    RunKeepsInv(steps);
    var s := Run(steps);
    var first, second := s.submissions[a], s.submissions[b];
    p := InsertedAt(s.memory.history, s.rearms, first);
    q := InsertedAt(s.memory.history, s.rearms, second);
    RepeatsAreFarApart(s.memory.history, p, q);
  }

  lemma InsertedAt(history: seq<Signal>, rearms: seq<seq<Signal>>, sub: Submission) returns (p: nat)
    requires SubmissionHolds(history, rearms, sub)
    ensures sub.before <= p < sub.after <= |history| && history[p] == sub.signal
  {
    var i :| 0 <= i < sub.after - sub.before && history[sub.before..sub.after][i] == sub.signal;
    p := sub.before + i;
  }

  /** The floor for a pair is the epoch of the last candidate listed for it. */
  lemma {:induction false} FloorsAreTheLastListed(candidates: seq<Signal>, i: nat)
    requires i < |candidates|
    ensures candidates[i].pair in Floors(candidates)
    ensures (forall j :: i < j < |candidates| ==> candidates[j].pair != candidates[i].pair) ==>
              Floors(candidates)[candidates[i].pair] == candidates[i].epoch
  {
    if i < |candidates| - 1 {
      var earlier := candidates[..|candidates| - 1];
      FloorsAreTheLastListed(earlier, i);
      assert forall j :: i < j < |earlier| ==> earlier[j] == candidates[j];
    }
  }

  lemma {:induction false} FloorsComeFromCandidates(candidates: seq<Signal>, pair: Pair) returns (i: nat)
    requires pair in Floors(candidates)
    ensures i < |candidates| && candidates[i] == Signal(pair, Floors(candidates)[pair])
    ensures forall j :: i < j < |candidates| ==> candidates[j].pair != pair
  {
    var last := |candidates| - 1;
    if candidates[last].pair == pair {
      i := last;
    } else {
      i := FloorsComeFromCandidates(candidates[..last], pair);
    }
  }

  /** Within each pair the last candidate listed is the newest. */
  predicate LastIsNewest(candidates: seq<Signal>) {
    forall i :: 0 <= i < |candidates| ==> NewerListedLast(candidates, i)
  }

  /** The last candidate of this one's pair is this one or one at least as new. */
  predicate NewerListedLast(candidates: seq<Signal>, i: nat)
    requires i < |candidates|
  {
    exists j :: i <= j < |candidates|
      && candidates[j].pair == candidates[i].pair && candidates[i].epoch <= candidates[j].epoch
      && forall k :: j < k < |candidates| ==> candidates[k].pair != candidates[j].pair
  }

  lemma FloorStopsIt(candidates: seq<Signal>, i: nat)
    requires i < |candidates|
    ensures !AboveFloor(candidates, candidates[i]) <==> NewerListedLast(candidates, i)
  {
    hide Floors;
    FloorsAreTheLastListed(candidates, i);
    var j := FloorsComeFromCandidates(candidates, candidates[i].pair);
    assert i <= j;
  }

  /** Re-arming shuts out every signal visible in the snapshot exactly when the snapshot lists no
      older signal of a pair after a newer one. */
  lemma {:induction false} RearmShutsOutTheVisible(candidates: seq<Signal>)
    ensures (forall c :: c in candidates ==> !AboveFloor(candidates, c)) <==> LastIsNewest(candidates)
  {
    hide Floors, NewerListedLast, AboveFloor;
    forall i | 0 <= i < |candidates|
      ensures !AboveFloor(candidates, candidates[i]) <==> NewerListedLast(candidates, i)
    {
      FloorStopsIt(candidates, i);
    }
    if LastIsNewest(candidates) {
      forall c | c in candidates ensures !AboveFloor(candidates, c) {
        var i :| 0 <= i < |candidates| && candidates[i] == c;
      }
    }
  }

  /** The shipped telemetry lists one signal per engine and registered strategy: `signal` is the last
      one, if any, of the symbol's engine for the strategy. */
  function Projections(symbol: string, strategies: seq<string>, signal: Pair -> Option<int>): seq<Signal> {
    if strategies == [] then []
    else
      var pair := Pair(symbol, strategies[|strategies| - 1]);
      Projections(symbol, strategies[..|strategies| - 1], signal)
      + if signal(pair).Some? then [Signal(pair, signal(pair).value)] else []
  }

  function Matrix(symbols: seq<string>, strategies: seq<string>, signal: Pair -> Option<int>): seq<Signal> {
    if symbols == [] then []
    else
      Matrix(symbols[..|symbols| - 1], strategies, signal)
      + Projections(symbols[|symbols| - 1], strategies, signal)
  }

  predicate PairsListedOnce(candidates: seq<Signal>) {
    forall i, j :: 0 <= i < j < |candidates| ==> candidates[i].pair != candidates[j].pair
  }

  lemma {:induction false} ProjectionsListOnce(symbol: string, strategies: seq<string>, signal: Pair -> Option<int>)
    requires NoDuplicates(strategies)
    ensures PairsListedOnce(Projections(symbol, strategies, signal))
    ensures forall c :: c in Projections(symbol, strategies, signal) ==>
              c.pair.symbol == symbol && c.pair.strategy in strategies
  {
    if strategies != [] {
      LastIsNew(strategies);
      ProjectionsListOnce(symbol, strategies[..|strategies| - 1], signal);
    }
  }

  lemma {:induction false} MatrixListsOnce(symbols: seq<string>, strategies: seq<string>, signal: Pair -> Option<int>)
    requires NoDuplicates(symbols) && NoDuplicates(strategies)
    ensures PairsListedOnce(Matrix(symbols, strategies, signal))
    ensures forall c :: c in Matrix(symbols, strategies, signal) ==> c.pair.symbol in symbols
  {
    if symbols != [] {
      LastIsNew(symbols);
      MatrixListsOnce(symbols[..|symbols| - 1], strategies, signal);
      ProjectionsListOnce(symbols[|symbols| - 1], strategies, signal);
    }
  }

  lemma ListedOnceIsNewestLast(candidates: seq<Signal>)
    requires PairsListedOnce(candidates)
    ensures LastIsNewest(candidates)
  {
    forall i | 0 <= i < |candidates| ensures NewerListedLast(candidates, i) {
      var j := i;
      assert candidates[i].epoch <= candidates[j].epoch
             && forall k :: j < k < |candidates| ==> candidates[k].pair != candidates[j].pair;
    }
  }

  /** A row of the asset ranking: the strategy in front for a symbol, and its last signal, if any. */
  datatype Row = Row(symbol: string, leader: Option<Signal>)

  function Ranked(rows: seq<Row>): seq<Signal> {
    if rows == [] then []
    else
      var leader := rows[|rows| - 1].leader;
      Ranked(rows[..|rows| - 1]) + if leader.Some? then [leader.value] else []
  }

  predicate OneRowPerSymbol(rows: seq<Row>) {
    && (forall i, j :: 0 <= i < j < |rows| ==> rows[i].symbol != rows[j].symbol)
    && (forall i :: 0 <= i < |rows| && rows[i].leader.Some? ==> rows[i].leader.value.pair.symbol == rows[i].symbol)
  }

  lemma {:induction false} RankingListsOnce(rows: seq<Row>)
    requires OneRowPerSymbol(rows)
    ensures PairsListedOnce(Ranked(rows))
    ensures forall c :: c in Ranked(rows) ==> exists i :: 0 <= i < |rows| && rows[i].symbol == c.pair.symbol
  {
    if rows != [] {
      var front := rows[..|rows| - 1];
      RankingListsOnce(front);
      forall c | c in Ranked(front) ensures c.pair.symbol != rows[|rows| - 1].symbol {
        var i :| 0 <= i < |front| && front[i].symbol == c.pair.symbol;
        assert rows[i].symbol == c.pair.symbol;
      }
      forall c | c in Ranked(rows) ensures exists i :: 0 <= i < |rows| && rows[i].symbol == c.pair.symbol {
        if c in Ranked(front) {
          var i :| 0 <= i < |front| && front[i].symbol == c.pair.symbol;
          assert rows[i].symbol == c.pair.symbol;
        } else {
          assert rows[|rows| - 1].symbol == c.pair.symbol;
        }
      }
    }
  }

  /** The three sources of candidates: the matrix of all engines, the ranking of assets, or the
      strategies of the one symbol shown. */
  datatype Telemetry =
    | Matrices(symbols: seq<string>, strategies: seq<string>, signal: Pair -> Option<int>)
    | Ranking(rows: seq<Row>)
    | Single(symbol: string, strategies: seq<string>, signal: Pair -> Option<int>)
  {
    predicate Valid() {
      match this
      case Matrices(symbols, strategies, _) => NoDuplicates(symbols) && NoDuplicates(strategies)
      case Ranking(rows) => OneRowPerSymbol(rows)
      case Single(_, strategies, _) => NoDuplicates(strategies)
    }

    function Visible(): seq<Signal> {
      match this
      case Matrices(symbols, strategies, signal) => Matrix(symbols, strategies, signal)
      case Ranking(rows) => Ranked(rows)
      case Single(symbol, strategies, signal) => Projections(symbol, strategies, signal)
    }
  }

  /** Each of them lists every pair at most once, so a re-arm shuts out everything it shows. */
  lemma {:induction false} RearmShutsOutTelemetry(t: Telemetry, c: Signal)
    requires t.Valid() && c in t.Visible()
    ensures !AboveFloor(t.Visible(), c)
  {
    hide Matrix, Ranked, Projections, Floors, AboveFloor, OneRowPerSymbol;
    match t {
      case Matrices(symbols, strategies, signal) => MatrixListsOnce(symbols, strategies, signal);
      case Ranking(rows) => RankingListsOnce(rows);
      case Single(symbol, strategies, signal) => ProjectionsListOnce(symbol, strategies, signal);
    }
    ListedOnceIsNewestLast(t.Visible());
    RearmShutsOutTheVisible(t.Visible());
  }

  /** After a re-arm, and until the next one, a round that filters submits no signal at or below
      the newest one visible then for its pair (when the snapshot lists each pair's newest last). */
  lemma {:induction false} NothingVisibleIsSubmitted(steps: seq<Step>, k: nat, c: Signal)
    requires k < |Run(steps).submissions| && Run(steps).submissions[k].filteredAt > 0
    requires Run(steps).submissions[k].filteredAt <= |Run(steps).rearms|
    requires var s := Run(steps);
             var armed := s.rearms[s.submissions[k].filteredAt - 1];
             LastIsNewest(armed) && c in armed && c.pair == s.submissions[k].signal.pair
    ensures Run(steps).submissions[k].signal.epoch > c.epoch
  {
    RunKeepsInv(steps);
    var s := Run(steps);
    var armed := s.rearms[s.submissions[k].filteredAt - 1];
    assert SubmissionHolds(s.memory.history, s.rearms, s.submissions[k]);
    RearmShutsOutTheVisible(armed);
    assert !AboveFloor(armed, c);
  }

  /** A round already past its filter when the operator re-arms may still submit; each re-arm can
      be overtaken by at most one such submission. */
  lemma {:induction false} AtMostOneOvertakes(steps: seq<Step>, rearm: nat, a: nat, b: nat)
    requires a < b < |Run(steps).submissions|
    requires Run(steps).submissions[a].filteredAt < rearm <= Run(steps).submissions[a].doneAt
    ensures rearm <= Run(steps).submissions[b].filteredAt
  {
    RunKeepsInv(steps);
  }

  /** Both limits of that promise are real. A round that filtered first submits a signal the
      re-arm saw; and a second re-arm whose snapshot no longer shows it forgets the first floor. */
  lemma RearmCanBeOvertakenOrForgotten(c: Signal)
    requires c.epoch >= 0
    ensures var overtaken := Next(Next(Next(INITIAL, Filter([c])), Rearm([c])), Finish([c], Some(c)));
            overtaken.submissions == [Submission(c, 0, 1, 0, 1)]
    ensures var again := Next(Next(INITIAL, Rearm([c])), Rearm([]));
            Next(Next(again, Filter([c])), Finish([c], Some(c))).submissions == [Submission(c, 0, 1, 2, 2)]
  {
    assert [c][..0] == [];
    assert Unevaluated({}, map[], []) == [];
    assert Unevaluated({}, map[], [c]) == [c];
    var empty := Memory({}, [], []);
    assert InsertAll(empty, []) == empty;
    assert InsertAll(empty, [c]) == Insert(empty, c) == Memory({c}, [c], [c]);
  }

  // ---------------------------------------------------------------- exactly when a re-arm holds

  function Resume(s: State, steps: seq<Step>): State {
    if steps == [] then s else Next(Resume(s, steps[..|steps| - 1]), steps[|steps| - 1])
  }

  /** A re-arm on this snapshot leaves the signal at or below its floor. */
  predicate Shuts(candidates: seq<Signal>, c: Signal) {
    var floors := Floors(candidates);
    c.epoch <= if c.pair in floors then floors[c.pair] else -1
  }

  predicate AllShut(steps: seq<Step>, c: Signal) {
    forall i :: 0 <= i < |steps| && steps[i].Rearm? ==> Shuts(steps[i].candidates, c)
  }

  predicate SubmittedSince(n: nat, s: State, c: Signal) {
    exists k :: n <= k < |s.submissions| && s.submissions[k].signal == c
  }

  /** An evaluation past its filter still holds the signal. */
  predicate InFlight(s: State, c: Signal) {
    s.round.Some? && c in s.round.value.unevaluated
  }

  /** After a re-arm of `s`, these steps, whose own re-arms all shut `c` out, submit it. */
  predicate Leaks(s: State, candidates: seq<Signal>, steps: seq<Step>, c: Signal) {
    AllShut(steps, c) && SubmittedSince(|s.submissions|, Resume(Next(s, Rearm(candidates)), steps), c)
  }

  /** Some continuation does. */
  ghost predicate CanLeak(s: State, candidates: seq<Signal>, c: Signal) {
    exists steps :: Leaks(s, candidates, steps, c)
  }

  /** The signal is not in flight and the floor in force shuts it out. */
  predicate Barred(s: State, c: Signal) {
    !InFlight(s, c) && s.rearms != [] && Shuts(s.rearms[|s.rearms| - 1], c)
  }

  lemma StepKeepsBarred(s: State, step: Step, c: Signal, n: nat)
    requires Barred(s, c) && !SubmittedSince(n, s, c) && (step.Rearm? ==> Shuts(step.candidates, c))
    ensures Barred(Next(s, step), c) && !SubmittedSince(n, Next(s, step), c)
  {
    hide InsertAll, Floors;
  }

  lemma {:induction false} StaysBarred(s: State, steps: seq<Step>, c: Signal, n: nat)
    requires Barred(s, c) && !SubmittedSince(n, s, c) && AllShut(steps, c)
    ensures Barred(Resume(s, steps), c) && !SubmittedSince(n, Resume(s, steps), c)
  {
    if steps != [] {
      var last := |steps| - 1;
      StaysBarred(s, steps[..last], c, n);
      assert steps[last].Rearm? ==> Shuts(steps[last].candidates, c);
      hide Barred, SubmittedSince, Next;
      StepKeepsBarred(Resume(s, steps[..last]), steps[last], c, n);
    }
  }

  lemma Resumes(s: State, steps: seq<Step>, step: Step)
    ensures Resume(s, steps + [step]) == Next(Resume(s, steps), step)
  {
    assert (steps + [step])[..|steps|] == steps;
  }

  /** A signal that passes the filter can be filtered and submitted when no round is in flight. */
  lemma CanBeSubmitted(s: State, c: Signal) returns (steps: seq<Step>)
    requires s.round.None? && Passes(s.memory.keys, CurrentFloors(s), c)
    ensures AllShut(steps, c) && SubmittedSince(|s.submissions|, Resume(s, steps), c)
    ensures |Resume(s, steps).submissions| > |s.submissions|
  {
    hide Passes, CurrentFloors, InsertAll;
    steps := [Filter([c])];
    Resumes(s, [], Filter([c]));
    var filtered := Resume(s, steps);
    assert c in [c];
    Resumes(s, steps, Finish([c], Some(c)));
    steps := steps + [Finish([c], Some(c))];
    var after := Next(filtered, Finish([c], Some(c)));
    assert after.submissions[|s.submissions|].signal == c;
  }

  // A remembered signal is forgotten once 512 others have been remembered.

  lemma {:induction false} EpochBound(keys: set<Signal>) returns (bound: int)
    ensures forall k :: k in keys ==> k.epoch < bound
  {
    if keys == {} {
      bound := 0;
    } else {
      var k :| k in keys;
      var rest := EpochBound(keys - {k});
      bound := if rest > k.epoch then rest else k.epoch + 1;
    }
  }

  /** So many signals of one pair, newer than any before. */
  function Newer(pair: Pair, base: int, n: nat): seq<Signal> {
    seq(n, i requires 0 <= i < n => Signal(pair, base + i))
  }

  lemma {:induction false} NewKeysEnter(m: Memory, keys: seq<Signal>)
    requires NoDuplicates(keys) && forall k :: k in keys ==> k !in m.keys
    ensures InsertAll(m, keys).history == m.history + keys
  {
    if keys != [] {
      var front, last := keys[..|keys| - 1], keys[|keys| - 1];
      LastIsNew(keys);
      NewKeysEnter(m, front);
      OnlyRememberedEnters(m, front, last);
      assert m.history + keys == m.history + front + [last];
    }
  }

  lemma ManyNewKeysEvict(m: Memory, keys: seq<Signal>, c: Signal)
    requires KeepsTheLatest(m) && |keys| == CAPACITY
    requires NoDuplicates(keys) && c !in keys && forall k :: k in keys ==> k !in m.keys
    ensures c !in InsertAll(m, keys).keys
  {
    NewKeysEnter(m, keys);
    InsertAllKeepsTheLatest(m, keys);
    assert InsertAll(m, keys).order == keys;
  }

  lemma ManyNewKeys(keys: set<Signal>, floors: map<Pair, int>, c: Signal) returns (newer: seq<Signal>)
    ensures |newer| == CAPACITY && NoDuplicates(newer) && c !in newer
    ensures forall k :: k in newer ==> k !in keys && Passes(keys, floors, k)
  {
    var bound := EpochBound(keys + {c});
    var floor := if c.pair in floors then floors[c.pair] else -1;
    var base := if bound > floor then bound else floor + 1;
    newer := Newer(c.pair, base, CAPACITY);
    assert forall k :: k in newer ==> k.epoch >= base && k.pair == c.pair;
  }

  /** From any state without a round in flight a signal can be made to leave the memory. */
  lemma CanBeForgotten(s: State, c: Signal) returns (steps: seq<Step>)
    requires s.round.None? && KeepsTheLatest(s.memory)
    ensures AllShut(steps, c)
    ensures var after := Resume(s, steps);
            && after.round.None? && c !in after.memory.keys
            && after.rearms == s.rearms && after.submissions == s.submissions
  {
    var keys := ManyNewKeys(s.memory.keys, CurrentFloors(s), c);
    ManyNewKeysEvict(s.memory, keys, c);
    RoundRemembers(s, keys);
    hide CurrentFloors, InsertAll, KeepsTheLatest, NoDuplicates, Passes, Next, Resume, Elements;
    Resumes(s, [], Filter(keys));
    Resumes(s, [] + [Filter(keys)], Finish(keys, None));
    ResumesAtOnce(s);
    steps := [] + [Filter(keys)] + [Finish(keys, None)];
  }

  lemma ResumesAtOnce(s: State)
    ensures Resume(s, []) == s
  {
  }

  /** A round whose candidates all pass can remember them all and submit none. */
  lemma RoundRemembers(s: State, keys: seq<Signal>)
    requires s.round.None? && forall k :: k in keys ==> Passes(s.memory.keys, CurrentFloors(s), k)
    ensures Next(Next(s, Filter(keys)), Finish(keys, None)) == s.(memory := InsertAll(s.memory, keys))
  {
    hide InsertAll, Passes, CurrentFloors;
  }

  lemma {:induction false} ResumeConcat(s: State, first: seq<Step>, second: seq<Step>)
    ensures Resume(s, first + second) == Resume(Resume(s, first), second)
  {
    if second == [] {
      assert first + second == first;
    } else {
      var front := second[..|second| - 1];
      assert (first + second)[..|first + second| - 1] == first + front;
      ResumeConcat(s, first, front);
    }
  }

  /** A signal above the floor in force can always be submitted again. */
  lemma AboveTheFloorLeaks(s: State, c: Signal) returns (steps: seq<Step>)
    requires KeepsTheLatest(s.memory) && s.rearms != [] && !Shuts(s.rearms[|s.rearms| - 1], c)
    ensures AllShut(steps, c) && SubmittedSince(|s.submissions|, Resume(s, steps), c)
  {
    hide KeepsTheLatest, InsertAll, Floors, SubmittedSince;
    var ended: seq<Step> := if s.round.Some? then [Finish([], None)] else [];
    Resumes(s, [], Finish([], None));
    assert InsertAll(s.memory, []) == s.memory by {
      NothingInserted(s.memory);
    }
    var idle := Resume(s, ended);
    var forgotten := CanBeForgotten(idle, c);
    var empty := Resume(idle, forgotten);
    assert Passes(empty.memory.keys, CurrentFloors(empty), c);
    var submitted := CanBeSubmitted(empty, c);
    ResumeConcat(s, ended, forgotten);
    ResumeConcat(s, ended + forgotten, submitted);
    steps := ended + forgotten + submitted;
  }

  lemma NothingInserted(m: Memory)
    ensures InsertAll(m, []) == m
  {
  }

  /** In every run: after a re-arm, and for as long as later re-arms shut it out, a signal can still be
      submitted if and only if an evaluation past its filter held it at the re-arm (it overtakes), or
      the re-arm itself did not shut it out (an earlier floor is forgotten). */
  lemma {:induction false} RearmHoldsExactly(run: seq<Step>, candidates: seq<Signal>, c: Signal)
    ensures CanLeak(Run(run), candidates, c) <==> InFlight(Run(run), c) || !Shuts(candidates, c)
  {
    hide Run, KeepsTheLatest, CanLeak, InFlight, Shuts;
    RunRemembers(run);
    LeaksExactly(Run(run), candidates, c);
  }

  lemma LeaksExactly(s: State, candidates: seq<Signal>, c: Signal)
    requires KeepsTheLatest(s.memory)
    ensures CanLeak(s, candidates, c) <==> InFlight(s, c) || !Shuts(candidates, c)
  {
    hide KeepsTheLatest, Leaks, InFlight, Shuts;
    if InFlight(s, c) {
      InFlightLeaks(s, candidates, c);
    } else if !Shuts(candidates, c) {
      OpenFloorLeaks(s, candidates, c);
    } else {
      forall steps ensures !Leaks(s, candidates, steps, c) {
        ShutNeverLeaks(s, candidates, steps, c);
      }
    }
  }

  lemma {:induction false} RunRemembers(run: seq<Step>)
    ensures KeepsTheLatest(Run(run).memory)
  {
    RunKeepsInv(run);
  }

  lemma ShutNeverLeaks(s: State, candidates: seq<Signal>, steps: seq<Step>, c: Signal)
    requires !InFlight(s, c) && Shuts(candidates, c)
    ensures !Leaks(s, candidates, steps, c)
  {
    hide Shuts, Resume;
    if AllShut(steps, c) {
      StaysBarred(Next(s, Rearm(candidates)), steps, c, |s.submissions|);
    }
  }

  lemma OpenFloorLeaks(s: State, candidates: seq<Signal>, c: Signal)
    requires KeepsTheLatest(s.memory) && !Shuts(candidates, c)
    ensures CanLeak(s, candidates, c)
  {
    hide Shuts, Resume, KeepsTheLatest, SubmittedSince, AllShut;
    var steps := AboveTheFloorLeaks(Next(s, Rearm(candidates)), c);
    assert Leaks(s, candidates, steps, c);
  }

  lemma InFlightLeaks(s: State, candidates: seq<Signal>, c: Signal)
    requires InFlight(s, c)
    ensures CanLeak(s, candidates, c)
  {
    hide InsertAll, Floors;
    var armed := Next(s, Rearm(candidates));
    var last := Finish([c], Some(c));
    Resumes(armed, [], last);
    var after := Next(armed, last);
    assert after.submissions[|s.submissions|].signal == c;
    assert Leaks(s, candidates, [] + [last], c);
  }

  /** So with the shipped telemetry a re-arm shuts out every signal it shows, and every older one of the
      same pair, except one that was already in flight. */
  lemma {:induction false} RearmOnTelemetryHoldsExactly(run: seq<Step>, t: Telemetry, shown: Signal, c: Signal)
    requires t.Valid() && shown in t.Visible() && c.pair == shown.pair && c.epoch <= shown.epoch
    ensures CanLeak(Run(run), t.Visible(), c) <==> InFlight(Run(run), c)
  {
    RearmHoldsExactly(run, t.Visible(), c);
    RearmShutsOutTelemetry(t, shown);
    hide CanLeak, Run;
  }

  /** The set and the list agree, without duplicates and with at most 512 entries, in every run. */
  lemma {:induction false} FifoIsTheLatest(steps: seq<Step>)
    ensures var m := Run(steps).memory;
            && m.keys == Elements(m.order)
            && NoDuplicates(m.order)
            && |m.keys| == |m.order| <= CAPACITY
            && |m.order| == (if |m.history| < CAPACITY then |m.history| else CAPACITY)
            && m.order == m.history[|m.history| - |m.order|..]
  {
    RunKeepsInv(steps);
    LatestAreDistinct(Run(steps).memory);
    DistinctCount(Run(steps).memory.order);
  }
}
