/** `_paged_tick_history` (apps/core/deriv_telemetry.py): a backward walk over pages of ticks that
    should give what one large query would. */
module TickHistory {
  import opened Optional

  datatype Identity = Identity(broker: string, symbol: string, epoch: int, quote: real, source: string)

  datatype Tick = Tick(identity: Identity, receivedAt: int, subscription: string) {
    function Epoch(): int {
      identity.epoch
    }
  }

  /** The worker's answer to call number `i` for `count` ticks up to `end`. Any function of these is
      a possible server; the call number lets it answer the same question differently. */
  type Server = (nat, nat, Option<int>) -> seq<Tick>

  datatype Result = OutsideBounds | Ticks(ticks: seq<Tick>)

  // ---------------------------------------------------------------- dictionary, minimum, sorting

  predicate DistinctIdentities(ticks: seq<Tick>) {
    forall i, j :: 0 <= i < j < |ticks| ==> ticks[i].identity != ticks[j].identity
  }

  predicate Ascending(ticks: seq<Tick>) {
    forall i, j :: 0 <= i <= j < |ticks| ==> ticks[i].Epoch() <= ticks[j].Epoch()
  }

  /** `unique[item.identity] = item` on an insertion-ordered dictionary. */
  function Put(unique: seq<Tick>, t: Tick): seq<Tick> {
    if unique == [] then [t]
    else if unique[0].identity == t.identity then [t] + unique[1..]
    else [unique[0]] + Put(unique[1..], t)
  }

  function PutAll(unique: seq<Tick>, ticks: seq<Tick>): seq<Tick> {
    if ticks == [] then unique else Put(PutAll(unique, ticks[..|ticks| - 1]), ticks[|ticks| - 1])
  }

  function OldestEpoch(ticks: seq<Tick>): int
    requires ticks != []
  {
    var last := ticks[|ticks| - 1].Epoch();
    if |ticks| == 1 then last
    else
      var rest := OldestEpoch(ticks[..|ticks| - 1]);
      if last < rest then last else rest
  }

  /** Stable: after every tick with the same or an earlier epoch. */
  function InsertByEpoch(sorted: seq<Tick>, t: Tick): seq<Tick> {
    if sorted == [] || sorted[|sorted| - 1].Epoch() <= t.Epoch() then sorted + [t]
    else InsertByEpoch(sorted[..|sorted| - 1], t) + [sorted[|sorted| - 1]]
  }

  function SortedByEpoch(ticks: seq<Tick>): seq<Tick> {
    if ticks == [] then [] else InsertByEpoch(SortedByEpoch(ticks[..|ticks| - 1]), ticks[|ticks| - 1])
  }

  function Last(ticks: seq<Tick>, count: nat): seq<Tick> {
    if |ticks| <= count then ticks else ticks[|ticks| - count..]
  }

  // ---------------------------------------------------------------- the walk

  /** What the loop carries from one page to the next. */
  datatype Cursor = Cursor(unique: seq<Tick>, end: Option<int>, oldest: Option<int>)

  /** One iteration: it breaks (after a request or before it) or goes on. */
  datatype Turn = Break(unique: seq<Tick>, calls: nat) | Continue(cursor: Cursor)

  function Requested(count: nat, size: nat, c: Cursor): int {
    if size < count - |c.unique| then size else count - |c.unique|
  }

  function Iterate(server: Server, count: nat, size: nat, page: nat, c: Cursor): Turn {
    if Requested(count, size, c) <= 0 then Break(c.unique, 0)
    else Received(c, server(page, Requested(count, size, c), c.end))
  }

  function Received(c: Cursor, ticks: seq<Tick>): Turn {
    if ticks == [] then Break(c.unique, 1)
    else
      var next := OldestEpoch(ticks);
      if (c.oldest.Some? && next >= c.oldest.value) || next - 1 <= 0 then Break(PutAll(c.unique, ticks), 1)
      else Continue(Cursor(PutAll(c.unique, ticks), Some(next - 1), Some(next)))
  }

  /** The dictionary after the remaining `pages` iterations, and the number of requests they make. */
  function Walk(server: Server, count: nat, size: nat, page: nat, pages: nat, c: Cursor): (seq<Tick>, nat)
    decreases pages
  {
    if pages == 0 then (c.unique, 0)
    else match Iterate(server, count, size, page, c)
      case Break(unique, calls) => (unique, calls)
      case Continue(next) =>
        var (final, calls) := Walk(server, count, size, page + 1, pages - 1, next);
        (final, calls + 1)
  }

  const NOTHING_YET := Cursor([], None, None)

  /** What the call returns, and how many requests it makes. */
  function PagedHistory(server: Server, count: nat, size: nat): (seq<Tick>, nat)
    requires size > 0
  {
    var (unique, calls) := Walk(server, count, size, 0, Pages(count, size), NOTHING_YET);
    (Last(SortedByEpoch(unique), count), calls)
  }

  function Pages(count: nat, size: nat): (n: nat)
    requires size > 0
    ensures n * size >= count && (n - 1) * size < count
  {
    (count + size - 1) / size
  }

  method PagedTickHistory(server: Server, symbol: string, count: int, pageSize: int)
    returns (r: Result, calls: nat)
    ensures r.OutsideBounds? <==> symbol == "" || !(1 <= count <= 20000) || !(1 <= pageSize <= 100)
    ensures r.OutsideBounds? ==> calls == 0
    ensures r.Ticks? ==> (r.ticks, calls) == PagedHistory(server, count, pageSize)
  {
    calls := 0;
    if symbol == "" || !(1 <= count <= 20000) || !(1 <= pageSize <= 100) {
      return OutsideBounds, 0;
    }
    var cursor := NOTHING_YET;
    var pages := Pages(count, pageSize);
    ghost var goal := Walk(server, count, pageSize, 0, pages, NOTHING_YET);
    var page := 0;
    while page < pages
      invariant 0 <= page <= pages
      invariant var (final, more) := Walk(server, count, pageSize, page, pages - page, cursor);
                goal == (final, calls + more)
    {
      var turn := FetchPage(server, count, pageSize, page, cursor);
      if turn.Break? {
        calls := calls + turn.calls;
        return Ticks(Last(SortedByEpoch(turn.unique), count)), calls;
      }
      calls := calls + 1;
      cursor := turn.cursor;
      page := page + 1;
    }
    r := Ticks(Last(SortedByEpoch(cursor.unique), count));
  }

  /** The body of the loop. */
  method FetchPage(server: Server, count: nat, size: nat, page: nat, c: Cursor) returns (turn: Turn)
    ensures turn == Iterate(server, count, size, page, c)
  {
    var requested := if size < count - |c.unique| then size else count - |c.unique|;
    if requested <= 0 {
      return Break(c.unique, 0);
    }
    var ticks := server(page, requested, c.end);
    if ticks == [] {
      return Break(c.unique, 1);
    }
    var unique := Merge(c.unique, ticks);
    var next := OldestEpoch(ticks);
    if c.oldest.Some? && next >= c.oldest.value {
      return Break(unique, 1);
    }
    if next - 1 <= 0 {
      return Break(unique, 1);
    }
    return Continue(Cursor(unique, Some(next - 1), Some(next)));
  }

  method Merge(unique: seq<Tick>, ticks: seq<Tick>) returns (grown: seq<Tick>)
    ensures grown == PutAll(unique, ticks)
  {
    grown := unique;
    for i := 0 to |ticks|
      invariant grown == PutAll(unique, ticks[..i])
    {
      assert ticks[..i + 1][..i] == ticks[..i];
      grown := Put(grown, ticks[i]);
    }
    assert ticks[..|ticks|] == ticks;
  }

  // ---------------------------------------------------------------- members, order, distinctness

  lemma {:induction false} PutKeepsDistinct(unique: seq<Tick>, t: Tick)
    requires DistinctIdentities(unique)
    ensures DistinctIdentities(Put(unique, t))
  {
    if unique != [] && unique[0].identity != t.identity {
      PutKeepsDistinct(unique[1..], t);
      PutMembers(unique[1..], t);
      var rest := Put(unique[1..], t);
      forall j | 0 <= j < |rest| ensures rest[j].identity != unique[0].identity {
        assert rest[j] in rest;
      }
    }
  }

  lemma {:induction false} PutMembers(unique: seq<Tick>, t: Tick)
    ensures forall x :: x in Put(unique, t) ==> x in unique || x == t
  {
    if unique != [] && unique[0].identity != t.identity {
      PutMembers(unique[1..], t);
    }
  }

  lemma {:induction false} PutAllMembers(unique: seq<Tick>, ticks: seq<Tick>)
    ensures forall x :: x in PutAll(unique, ticks) ==> x in unique || x in ticks
  {
    if ticks != [] {
      PutAllMembers(unique, ticks[..|ticks| - 1]);
      PutMembers(PutAll(unique, ticks[..|ticks| - 1]), ticks[|ticks| - 1]);
    }
  }

  lemma {:induction false} PutAllKeepsDistinct(unique: seq<Tick>, ticks: seq<Tick>)
    requires DistinctIdentities(unique)
    ensures DistinctIdentities(PutAll(unique, ticks))
  {
    if ticks != [] {
      PutAllKeepsDistinct(unique, ticks[..|ticks| - 1]);
      PutKeepsDistinct(PutAll(unique, ticks[..|ticks| - 1]), ticks[|ticks| - 1]);
    }
  }

  function Identities(ticks: seq<Tick>): seq<Identity> {
    seq(|ticks|, i requires 0 <= i < |ticks| => ticks[i].identity)
  }

  /** Each identity at the place of its first appearance. */
  function FirstPlaces(ids: seq<Identity>): seq<Identity> {
    if ids == [] then []
    else
      var before, last := FirstPlaces(ids[..|ids| - 1]), ids[|ids| - 1];
      if last in before then before else before + [last]
  }

  function LastWith(ticks: seq<Tick>, id: Identity): Option<Tick> {
    if ticks == [] then None
    else if ticks[|ticks| - 1].identity == id then Some(ticks[|ticks| - 1])
    else LastWith(ticks[..|ticks| - 1], id)
  }

  lemma {:induction false} PutPlaces(unique: seq<Tick>, t: Tick)
    ensures Identities(Put(unique, t)) ==
            Identities(unique) + if t.identity in Identities(unique) then [] else [t.identity]
  {
    if unique != [] {
      var rest := unique[1..];
      assert Identities(unique) == [unique[0].identity] + Identities(rest);
      if unique[0].identity != t.identity {
        PutPlaces(rest, t);
        assert Identities(Put(unique, t)) == [unique[0].identity] + Identities(Put(rest, t));
      }
    }
  }

  lemma {:induction false} PutReplaces(unique: seq<Tick>, t: Tick)
    requires DistinctIdentities(unique)
    ensures forall x :: x in Put(unique, t) ==> x == t || (x in unique && x.identity != t.identity)
  {
    if unique != [] {
      if unique[0].identity == t.identity {
        assert forall j :: 0 < j < |unique| ==> unique[j].identity != t.identity;
      } else {
        PutReplaces(unique[1..], t);
      }
    }
  }

  lemma PlacesAndValuesOfAppend(ticks: seq<Tick>, t: Tick)
    ensures FirstPlaces(Identities(ticks + [t])) ==
            FirstPlaces(Identities(ticks)) + if t.identity in FirstPlaces(Identities(ticks)) then [] else [t.identity]
    ensures forall id :: LastWith(ticks + [t], id) == if id == t.identity then Some(t) else LastWith(ticks, id)
  {
    var all := ticks + [t];
    assert all[..|ticks|] == ticks;
    assert Identities(all)[..|ticks|] == Identities(ticks);
  }

  lemma {:induction false} DistinctAreInPlace(ticks: seq<Tick>)
    requires DistinctIdentities(ticks)
    ensures FirstPlaces(Identities(ticks)) == Identities(ticks)
    ensures forall x :: x in ticks ==> LastWith(ticks, x.identity) == Some(x)
  {
    if ticks != [] {
      var front, last := ticks[..|ticks| - 1], ticks[|ticks| - 1];
      assert ticks == front + [last];
      DistinctAreInPlace(front);
      PlacesAndValuesOfAppend(front, last);
      hide FirstPlaces, LastWith;
      assert Identities(ticks) == Identities(front) + [last.identity];
      assert forall i :: 0 <= i < |front| ==> Identities(front)[i] != last.identity;
    }
  }

  /** Merging pages into the dictionary keeps every identity at its first place with its last value. */
  lemma {:induction false} MergeKeepsFirstPlaceLastValue(unique: seq<Tick>, ticks: seq<Tick>)
    requires DistinctIdentities(unique)
    ensures Identities(PutAll(unique, ticks)) == FirstPlaces(Identities(unique + ticks))
    ensures forall x :: x in PutAll(unique, ticks) ==> LastWith(unique + ticks, x.identity) == Some(x)
  {
    if ticks == [] {
      assert unique + ticks == unique;
      DistinctAreInPlace(unique);
    } else {
      var front, t := ticks[..|ticks| - 1], ticks[|ticks| - 1];
      assert unique + ticks == (unique + front) + [t];
      MergeKeepsFirstPlaceLastValue(unique, front);
      PutAllKeepsDistinct(unique, front);
      hide FirstPlaces, LastWith, Identities, DistinctIdentities, Put;
      PutPlaces(PutAll(unique, front), t);
      PutReplaces(PutAll(unique, front), t);
      PlacesAndValuesOfAppend(unique + front, t);
    }
  }

  /** Inserting adds exactly one tick. */
  lemma {:induction false} InsertAddsOne(sorted: seq<Tick>, t: Tick)
    ensures |InsertByEpoch(sorted, t)| == |sorted| + 1
    ensures forall x :: x in InsertByEpoch(sorted, t) <==> x in sorted || x == t
  {
    if sorted != [] && sorted[|sorted| - 1].Epoch() > t.Epoch() {
      InsertAddsOne(sorted[..|sorted| - 1], t);
      assert sorted == sorted[..|sorted| - 1] + [sorted[|sorted| - 1]];
    }
  }

  lemma {:induction false} InsertKeepsOrder(sorted: seq<Tick>, t: Tick)
    requires Ascending(sorted)
    ensures Ascending(InsertByEpoch(sorted, t))
  {
    if sorted != [] && sorted[|sorted| - 1].Epoch() > t.Epoch() {
      var front, last := sorted[..|sorted| - 1], sorted[|sorted| - 1];
      InsertKeepsOrder(front, t);
      InsertAddsOne(front, t);
      var r := InsertByEpoch(front, t);
      forall x | x in r ensures x.Epoch() <= last.Epoch() {
        assert x in front ==> x in sorted;
      }
      AscendingThen(r, last);
    }
  }

  lemma AscendingThen(r: seq<Tick>, last: Tick)
    requires Ascending(r) && forall x :: x in r ==> x.Epoch() <= last.Epoch()
    ensures Ascending(r + [last])
  {
  }

  lemma DistinctThen(r: seq<Tick>, last: Tick)
    requires DistinctIdentities(r) && forall x :: x in r ==> x.identity != last.identity
    ensures DistinctIdentities(r + [last])
  {
  }

  lemma {:induction false} InsertKeepsDistinct(sorted: seq<Tick>, t: Tick)
    requires DistinctIdentities(sorted + [t])
    ensures DistinctIdentities(InsertByEpoch(sorted, t))
  {
    if sorted != [] && sorted[|sorted| - 1].Epoch() > t.Epoch() {
      var front, last := sorted[..|sorted| - 1], sorted[|sorted| - 1];
      assert sorted == front + [last];
      DistinctWithout(front, last, t);
      InsertKeepsDistinct(front, t);
      InsertAddsOne(front, t);
      DistinctThen(InsertByEpoch(front, t), last);
    }
  }

  lemma DistinctWithout(front: seq<Tick>, last: Tick, t: Tick)
    requires DistinctIdentities(front + [last] + [t])
    ensures DistinctIdentities(front + [t])
    ensures forall x :: x in front || x == t ==> x.identity != last.identity
  {
    var all := front + [last] + [t];
    assert forall i :: 0 <= i < |front| ==> all[i] == front[i];
    assert all[|front|] == last && all[|front| + 1] == t;
  }

  lemma {:induction false} SortPermutes(ticks: seq<Tick>)
    ensures Ascending(SortedByEpoch(ticks)) && |SortedByEpoch(ticks)| == |ticks|
    ensures forall x :: x in SortedByEpoch(ticks) <==> x in ticks
  {
    hide InsertByEpoch;
    if ticks != [] {
      var front, last := ticks[..|ticks| - 1], ticks[|ticks| - 1];
      SortPermutes(front);
      InsertAddsOne(SortedByEpoch(front), last);
      InsertKeepsOrder(SortedByEpoch(front), last);
      assert ticks == front + [last];
    }
  }

  lemma {:induction false} SortKeepsDistinct(ticks: seq<Tick>)
    requires DistinctIdentities(ticks)
    ensures DistinctIdentities(SortedByEpoch(ticks))
  {
    hide InsertByEpoch;
    if ticks != [] {
      var front, last := ticks[..|ticks| - 1], ticks[|ticks| - 1];
      SortKeepsDistinct(front);
      SortPermutes(front);
      forall x | x in front ensures x.identity != last.identity {
        var i :| 0 <= i < |front| && front[i] == x;
        assert ticks[i] == x;
      }
      DistinctThen(SortedByEpoch(front), last);
      InsertKeepsDistinct(SortedByEpoch(front), last);
    }
  }

  // ---------------------------------------------------------------- against any server

  lemma {:induction false} WalkIsBounded(server: Server, count: nat, size: nat, page: nat, pages: nat, c: Cursor)
    requires DistinctIdentities(c.unique)
    ensures DistinctIdentities(Walk(server, count, size, page, pages, c).0)
    ensures Walk(server, count, size, page, pages, c).1 <= pages
    decreases pages
  {
    if pages > 0 && Requested(count, size, c) > 0 {
      PutAllKeepsDistinct(c.unique, server(page, Requested(count, size, c), c.end));
      var turn := Iterate(server, count, size, page, c);
      if turn.Continue? {
        WalkIsBounded(server, count, size, page + 1, pages - 1, turn.cursor);
      }
    }
  }

  /** Against any server: at most ceil(count / size) requests, at most `count` ticks, in ascending
      order of epoch, no identity twice. */
  lemma {:induction false} AnyServer(server: Server, count: nat, size: nat)
    requires size > 0
    ensures var (ticks, calls) := PagedHistory(server, count, size);
            calls <= Pages(count, size) && |ticks| <= count && Ascending(ticks) && DistinctIdentities(ticks)
  {
    WalkIsBounded(server, count, size, 0, Pages(count, size), NOTHING_YET);
    var unique := Walk(server, count, size, 0, Pages(count, size), NOTHING_YET).0;
    SortPermutes(unique);
    SortKeepsDistinct(unique);
  }

  // ---------------------------------------------------------------- against an honest server

  function UpTo(history: seq<Tick>, end: int): nat {
    if history == [] then 0
    else if history[|history| - 1].Epoch() <= end then |history|
    else UpTo(history[..|history| - 1], end)
  }

  /** One query: the newest `count` ticks at or before `end`, oldest first. */
  function Query(history: seq<Tick>, count: nat, end: Option<int>): seq<Tick> {
    var n := if end.Some? then UpTo(history, end.value) else |history|;
    if n <= |history| then Last(history[..n], count) else []
  }

  ghost predicate Honest(server: Server, history: seq<Tick>) {
    forall page, count, end :: server(page, count, end) == Query(history, count, end)
  }

  predicate IsHistory(history: seq<Tick>) {
    && Ascending(history)
    && DistinctIdentities(history)
    && forall i :: 0 <= i < |history| ==> history[i].Epoch() > 0
  }

  /** The page boundary `n` ticks from the end does not cut through ticks of one epoch. */
  predicate CleanCut(history: seq<Tick>, n: nat) {
    0 < n < |history| ==> history[|history| - n - 1].Epoch() < history[|history| - n].Epoch()
  }

  /** `m` full pages of ticks. */
  function Times(m: nat, size: nat): nat {
    if m == 0 then 0 else Times(m - 1, size) + size
  }

  lemma {:induction false} TimesIsProduct(m: nat, size: nat)
    ensures Times(m, size) == m * size
  {
    if m > 0 {
      TimesIsProduct(m - 1, size);
    }
  }

  ghost predicate CleanPages(history: seq<Tick>, count: nat, size: nat) {
    forall m :: 1 <= m && Times(m, size) < count ==> CleanCut(history, Times(m, size))
  }

  lemma {:induction false} UpToCuts(history: seq<Tick>, end: int)
    requires Ascending(history)
    ensures UpTo(history, end) <= |history|
    ensures forall i :: 0 <= i < |history| ==> (history[i].Epoch() <= end <==> i < UpTo(history, end))
  {
    if history != [] && history[|history| - 1].Epoch() > end {
      var front := history[..|history| - 1];
      UpToCuts(front, end);
      assert forall i :: 0 <= i < |front| ==> front[i] == history[i];
    }
  }

  lemma {:induction false} InsertBetween(low: seq<Tick>, high: seq<Tick>, t: Tick)
    requires low != [] ==> low[|low| - 1].Epoch() <= t.Epoch()
    requires forall i :: 0 <= i < |high| ==> high[i].Epoch() > t.Epoch()
    ensures InsertByEpoch(low + high, t) == low + [t] + high
  {
    var all := low + high;
    if high == [] {
      assert all == low;
      assert low + [t] + high == low + [t];
    } else {
      var front, last := high[..|high| - 1], high[|high| - 1];
      assert all[..|all| - 1] == low + front && all[|all| - 1] == last;
      InsertBetween(low, front, t);
      Regroup(low + [t], front, [last]);
      assert front + [last] == high;
    }
  }

  lemma Regroup(x: seq<Tick>, y: seq<Tick>, z: seq<Tick>)
    ensures (x + y) + z == x + (y + z)
  {
  }

  /** An older, already ascending page sorts in front of what was collected before. */
  lemma {:induction false} OlderPageGoesFirst(unique: seq<Tick>, page: seq<Tick>)
    requires Ascending(page)
    requires page != [] ==> forall y :: y in unique ==> page[|page| - 1].Epoch() < y.Epoch()
    ensures SortedByEpoch(unique + page) == page + SortedByEpoch(unique)
  {
    hide SortedByEpoch, InsertByEpoch;
    var high := SortedByEpoch(unique);
    if page == [] {
      assert unique + page == unique && page + high == high;
    } else {
      var front, t := page[..|page| - 1], page[|page| - 1];
      assert front + [t] == page;
      Regroup(unique, front, [t]);
      OlderPageGoesFirst(unique, front);
      NewerThan(unique, t);
      SortThen(unique + front, t);
      InsertBetween(front, high, t);
    }
  }

  lemma SortThen(ticks: seq<Tick>, t: Tick)
    ensures SortedByEpoch(ticks + [t]) == InsertByEpoch(SortedByEpoch(ticks), t)
  {
  }

  lemma NewerThan(unique: seq<Tick>, t: Tick)
    requires forall y :: y in unique ==> t.Epoch() < y.Epoch()
    ensures forall i :: 0 <= i < |SortedByEpoch(unique)| ==> SortedByEpoch(unique)[i].Epoch() > t.Epoch()
  {
    SortPermutes(unique);
    var high := SortedByEpoch(unique);
    forall i | 0 <= i < |high| ensures high[i].Epoch() > t.Epoch() {
      assert high[i] in high;
    }
  }

  lemma {:induction false} PutNew(unique: seq<Tick>, t: Tick)
    requires forall x :: x in unique ==> x.identity != t.identity
    ensures Put(unique, t) == unique + [t]
  {
    if unique != [] {
      PutNew(unique[1..], t);
      Regroup([unique[0]], unique[1..], [t]);
      assert [unique[0]] + unique[1..] == unique;
    }
  }

  /** A page of new ticks is simply appended to the dictionary. */
  lemma {:induction false} PutAllNew(unique: seq<Tick>, page: seq<Tick>)
    requires DistinctIdentities(page)
    requires forall x, y :: x in page && y in unique ==> x.identity != y.identity
    ensures PutAll(unique, page) == unique + page
  {
    if page == [] {
      assert unique + page == unique;
    } else {
      var front, t := page[..|page| - 1], page[|page| - 1];
      assert front + [t] == page;
      PutAllNew(unique, front);
      forall x | x in unique + front ensures x.identity != t.identity {
        if x in front {
          var i :| 0 <= i < |front| && front[i] == x;
          assert page[i] == x;
        } else {
          assert t in page;
        }
      }
      PutNew(unique + front, t);
      Regroup(unique, front, [t]);
    }
  }

  // ---------------------------------------------------------------- exactly when the walk is one query

  /** The dictionary holds exactly the newest `|history| - low` ticks. */
  ghost predicate Collected(history: seq<Tick>, unique: seq<Tick>, low: nat) {
    && low <= |history|
    && |unique| == |history| - low
    && SortedByEpoch(unique) == history[low..]
  }

  /** The cursor after collecting down to `low`. */
  ghost predicate Stands(history: seq<Tick>, c: Cursor, low: nat) {
    && Collected(history, c.unique, low)
    && c.oldest == (if low < |history| then Some(history[low].Epoch()) else None)
    && c.end == (if low < |history| then Some(history[low].Epoch() - 1) else None)
  }

  function Below(low: nat, requested: nat): nat {
    if requested < low then low - requested else 0
  }

  lemma QueryBelow(history: seq<Tick>, c: Cursor, low: nat, requested: nat)
    requires Ascending(history) && Stands(history, c, low) && CleanCut(history, |history| - low)
    ensures Query(history, requested, c.end) == history[Below(low, requested)..low]
  {
    hide UpTo, SortedByEpoch;
    if low < |history| {
      UpToCuts(history, c.end.value);
      var n := UpTo(history, c.end.value);
      assert n <= low;
      assert 0 < low ==> low - 1 < n;
    }
    LastOfPrefix(history, low, requested);
  }

  lemma LastOfPrefix(history: seq<Tick>, n: nat, count: nat)
    requires n <= |history|
    ensures Last(history[..n], count) == history[Below(n, count)..n]
  {
  }

  lemma {:induction false} OldestOfAscending(page: seq<Tick>)
    requires page != [] && Ascending(page)
    ensures OldestEpoch(page) == page[0].Epoch()
  {
    if |page| > 1 {
      OldestOfAscending(page[..|page| - 1]);
    }
  }

  lemma SliceIsHistory(history: seq<Tick>, i: nat, j: nat)
    requires Ascending(history) && DistinctIdentities(history) && i <= j <= |history|
    ensures Ascending(history[i..j]) && DistinctIdentities(history[i..j])
    ensures forall x, y :: x in history[i..j] && y in history[j..] ==> x.identity != y.identity
  {
  }

  /** Below a clean cut, ticks are older than everything collected. */
  lemma OlderThanCollected(history: seq<Tick>, unique: seq<Tick>, low: nat)
    requires Ascending(history) && Collected(history, unique, low) && 0 < low
    requires CleanCut(history, |history| - low)
    ensures forall y :: y in unique ==> history[low - 1].Epoch() < y.Epoch()
  {
    SortPermutes(unique);
    forall y | y in unique ensures history[low - 1].Epoch() < y.Epoch() {
      assert y in SortedByEpoch(unique);
      var j :| 0 <= j < |history| - low && history[low..][j] == y;
      assert history[low].Epoch() <= history[low + j].Epoch();
    }
  }

  /** Fetching the next page below a clean cut. */
  lemma NextPage(history: seq<Tick>, unique: seq<Tick>, low: nat, low': nat)
    requires IsHistory(history) && Collected(history, unique, low) && low' <= low
    requires CleanCut(history, |history| - low)
    ensures Collected(history, PutAll(unique, history[low'..low]), low')
  {
    hide SortedByEpoch, PutAll;
    var page := history[low'..low];
    SliceIsHistory(history, low', low);
    SortPermutes(unique);
    PutAllNew(unique, page);
    if page != [] {
      OlderThanCollected(history, unique, low);
      assert page[|page| - 1] == history[low - 1];
    }
    OlderPageGoesFirst(unique, page);
    assert page + history[low..] == history[low'..];
  }

  /** One iteration from a clean cut, when there is something to ask for and something to get. */
  lemma Advances(server: Server, history: seq<Tick>, count: nat, size: nat, page: nat, c: Cursor, low: nat)
    requires IsHistory(history) && Honest(server, history)
    requires Stands(history, c, low) && CleanCut(history, |history| - low)
    requires 0 < low && Requested(count, size, c) > 0
    ensures var low' := Below(low, Requested(count, size, c));
            var turn := Iterate(server, count, size, page, c);
            && (turn.Continue? ==> Stands(history, turn.cursor, low'))
            && (turn.Break? ==> Collected(history, turn.unique, low') && history[low'].Epoch() == 1)
  {
    hide SortedByEpoch, PutAll, OldestEpoch, UpTo, DistinctIdentities;
    var low' := Below(low, Requested(count, size, c));
    var fetched := history[low'..low];
    QueryBelow(history, c, low, Requested(count, size, c));
    SliceIsHistory(history, low', low);
    OldestOfAscending(fetched);
    NextPage(history, c.unique, low, low');
    assert history[low'].Epoch() <= history[low - 1].Epoch();
  }

  lemma NothingBelow(server: Server, history: seq<Tick>, count: nat, size: nat, page: nat, c: Cursor)
    requires IsHistory(history) && Honest(server, history)
    requires Stands(history, c, 0) && Requested(count, size, c) > 0
    ensures Iterate(server, count, size, page, c) == Break(c.unique, 1)
  {
    hide SortedByEpoch;
    QueryBelow(history, c, 0, Requested(count, size, c));
  }

  lemma BeginsAtTheEnd(history: seq<Tick>)
    ensures Stands(history, NOTHING_YET, |history|)
  {
  }

  lemma WalkEnds(server: Server, count: nat, size: nat, page: nat, c: Cursor)
    ensures Walk(server, count, size, page, 0, c).0 == c.unique
  {
  }

  lemma WalkTakesTurn(server: Server, count: nat, size: nat, page: nat, pages: nat, c: Cursor)
    requires pages > 0
    ensures var turn := Iterate(server, count, size, page, c);
            Walk(server, count, size, page, pages, c).0
              == if turn.Break? then turn.unique else Walk(server, count, size, page + 1, pages - 1, turn.cursor).0
  {
  }

  function Capped(n: nat, count: nat): nat {
    if n < count then n else count
  }

  function LowAfter(history: seq<Tick>, n: nat): nat {
    if n < |history| then |history| - n else 0
  }

  /** With every cut clean, the walk collects exactly the newest `count` ticks. */
  lemma {:induction false} CleanWalk(
    server: Server, history: seq<Tick>, count: nat, size: nat, page: nat, pages: nat, c: Cursor)
    requires IsHistory(history) && Honest(server, history) && size > 0
    requires CleanPages(history, count, size) && Times(page + pages, size) >= count
    requires Stands(history, c, LowAfter(history, Capped(Times(page, size), count)))
    ensures Collected(history, Walk(server, count, size, page, pages, c).0, LowAfter(history, count))
    decreases pages
  {
    hide IsHistory, CleanPages, SortedByEpoch, Received, Honest;
    var low := LowAfter(history, Capped(Times(page, size), count));
    assert Times(page + 1, size) == Times(page, size) + size;
    if pages > 0 && Requested(count, size, c) > 0 {
      CutIsClean(history, count, size, page, low);
      if low == 0 {
        NothingBelow(server, history, count, size, page, c);
      } else {
        Advances(server, history, count, size, page, c, low);
        var low' := Below(low, Requested(count, size, c));
        assert low' == LowAfter(history, Capped(Times(page + 1, size), count));
        var turn := Iterate(server, count, size, page, c);
        if turn.Continue? {
          CleanWalk(server, history, count, size, page + 1, pages - 1, turn.cursor);
        } else {
          StopsOnlyAtTheFront(history, count, size, page + 1, low');
        }
      }
    }
  }

  lemma CutIsClean(history: seq<Tick>, count: nat, size: nat, page: nat, low: nat)
    requires CleanPages(history, count, size)
    requires low == LowAfter(history, Capped(Times(page, size), count))
    requires Times(page, size) < count || low == 0
    ensures CleanCut(history, |history| - low)
  {
  }

  lemma StopsOnlyAtTheFront(history: seq<Tick>, count: nat, size: nat, page: nat, low: nat)
    requires IsHistory(history) && CleanPages(history, count, size) && page >= 1
    requires low == LowAfter(history, Capped(Times(page, size), count)) && low < |history|
    requires history[low].Epoch() == 1
    ensures low == LowAfter(history, count)
  {
  }

  /** A tick newer than the next request's end is never fetched again. */
  lemma {:induction false} SkipsForGood(
    server: Server, history: seq<Tick>, count: nat, size: nat, page: nat, pages: nat, c: Cursor, t: Tick)
    requires Ascending(history) && Honest(server, history)
    requires t !in c.unique && c.end.Some? && c.end.value < t.Epoch()
    ensures t !in Walk(server, count, size, page, pages, c).0
    decreases pages
  {
    hide UpTo, PutAll, OldestEpoch;
    if pages > 0 && Requested(count, size, c) > 0 {
      var n := UpTo(history, c.end.value);
      UpToCuts(history, c.end.value);
      var ticks := Query(history, Requested(count, size, c), c.end);
      LastOfPrefix(history, n, Requested(count, size, c));
      PutAllMembers(c.unique, ticks);
      var turn := Iterate(server, count, size, page, c);
      if turn.Continue? {
        assert Ascending(ticks);
        OldestOfAscending(ticks);
        SkipsForGood(server, history, count, size, page + 1, pages - 1, turn.cursor, t);
      }
    }
  }

  lemma NotCollectedYet(history: seq<Tick>, unique: seq<Tick>, low: nat, i: nat)
    requires IsHistory(history) && Collected(history, unique, low) && i < low
    ensures history[i] !in unique
  {
    SortPermutes(unique);
    forall x | x in history[low..] ensures x != history[i] {
      var j :| 0 <= j < |history| - low && history[low..][j] == x;
      assert history[low + j].identity != history[i].identity;
    }
  }

  lemma LostBelowCut(
    server: Server, history: seq<Tick>, count: nat, size: nat, page: nat, pages: nat, c: Cursor, low: nat)
    requires IsHistory(history) && Honest(server, history)
    requires Stands(history, c, low) && !CleanCut(history, |history| - low)
    ensures history[low - 1] !in Walk(server, count, size, page, pages, c).0
  {
    hide SortedByEpoch, Walk, Honest;
    NotCollectedYet(history, c.unique, low, low - 1);
    assert history[low - 1].Epoch() <= history[low].Epoch();
    SkipsForGood(server, history, count, size, page, pages, c, history[low - 1]);
  }

  /** A cut through ticks of one epoch, `m` pages from the end: the tick just below it is lost. */
  lemma {:induction false} DirtyWalk(
    server: Server, history: seq<Tick>, count: nat, size: nat, page: nat, pages: nat, c: Cursor, m: nat)
    requires IsHistory(history) && Honest(server, history) && size > 0
    requires Times(m, size) < count && Times(m, size) < |history| && !CleanCut(history, Times(m, size))
    requires forall k :: 1 <= k < m ==> CleanCut(history, Times(k, size))
    requires page <= m && Times(page, size) <= Times(m, size)
    requires Stands(history, c, |history| - Times(page, size))
    ensures history[|history| - Times(m, size) - 1] !in Walk(server, count, size, page, pages, c).0
    decreases pages
  {
    hide SortedByEpoch, PutAll, Walk, Iterate, Honest, IsHistory, CleanCut, Times;
    var low := |history| - Times(page, size);
    var lost := |history| - Times(m, size) - 1;
    if page == m {
      LostBelowCut(server, history, count, size, page, pages, c, low);
    } else if pages == 0 {
      NotCollectedYet(history, c.unique, low, lost);
      WalkEnds(server, count, size, page, c);
    } else {
      PagesApart(page, m, size);
      CutAt(history, size, page);
      Advances(server, history, count, size, page, c, low);
      WalkTakesTurn(server, count, size, page, pages, c);
      var turn := Iterate(server, count, size, page, c);
      if turn.Continue? {
        DirtyWalk(server, history, count, size, page + 1, pages - 1, turn.cursor, m);
      } else {
        NotCollectedYet(history, turn.unique, low - size, lost);
      }
    }
  }

  lemma CutAt(history: seq<Tick>, size: nat, page: nat)
    requires page == 0 || CleanCut(history, Times(page, size))
    ensures CleanCut(history, Times(page, size))
  {
  }

  lemma {:induction false} PagesApart(page: nat, m: nat, size: nat)
    requires page < m
    ensures Times(page + 1, size) == Times(page, size) + size <= Times(m, size)
  {
    if page + 1 < m {
      PagesApart(page, m - 1, size);
    }
  }

  lemma {:induction false} FirstDirtyCut(history: seq<Tick>, size: nat, m: nat) returns (first: nat)
    requires m >= 1 && !CleanCut(history, Times(m, size))
    ensures 1 <= first <= m && !CleanCut(history, Times(first, size))
    ensures forall k :: 1 <= k < first ==> CleanCut(history, Times(k, size))
  {
    first := 1;
    while CleanCut(history, Times(first, size))
      invariant 1 <= first <= m
      invariant forall k :: 1 <= k < first ==> CleanCut(history, Times(k, size))
      decreases m - first
    {
      first := first + 1;
    }
  }

  lemma {:induction false} CleanPagesSuffice(server: Server, history: seq<Tick>, count: nat, size: nat)
    requires IsHistory(history) && Honest(server, history) && size > 0
    requires CleanPages(history, count, size)
    ensures PagedHistory(server, count, size).0 == Last(history, count)
  {
    hide SortedByEpoch, Walk, IsHistory, Honest, CleanPages;
    TimesIsProduct(Pages(count, size), size);
    BeginsAtTheEnd(history);
    CleanWalk(server, history, count, size, 0, Pages(count, size), NOTHING_YET);
  }

  /** The tick lost below a dirty cut is one that a single query would have returned. */
  lemma {:induction false} DirtyCutLosesATick(server: Server, history: seq<Tick>, count: nat, size: nat, m: nat)
    requires IsHistory(history) && Honest(server, history) && size > 0
    requires 1 <= m && Times(m, size) < count && !CleanCut(history, Times(m, size))
    ensures exists t :: t in Last(history, count) && t !in PagedHistory(server, count, size).0
  {
    hide SortedByEpoch, Walk, IsHistory, Honest;
    var first := FirstDirtyCut(history, size, m);
    if first < m {
      PagesApart(first, m, size);
    }
    BeginsAtTheEnd(history);
    DirtyWalk(server, history, count, size, 0, Pages(count, size), NOTHING_YET, first);
    SortPermutes(Walk(server, count, size, 0, Pages(count, size), NOTHING_YET).0);
    var lost := |history| - Times(first, size) - 1;
    InLast(history, count, lost);
  }

  lemma InLast(history: seq<Tick>, count: nat, i: nat)
    requires i < |history| && |history| - i <= count
    ensures history[i] in Last(history, count)
  {
  }

  /** Against an honest server the paged walk gives exactly what one query for `count` ticks would
      give, if and only if no page boundary cuts through ticks of one epoch. */
  lemma {:induction false} PagedIsOneQuery(server: Server, history: seq<Tick>, count: nat, size: nat)
    requires IsHistory(history) && Honest(server, history) && size > 0
    ensures PagedHistory(server, count, size).0 == Query(history, count, None) <==> CleanPages(history, count, size)
  {
    hide PagedHistory, IsHistory, Honest, CleanCut;
    assert history[..|history|] == history;
    if CleanPages(history, count, size) {
      CleanPagesSuffice(server, history, count, size);
    } else {
      var m :| 1 <= m && Times(m, size) < count && !CleanCut(history, Times(m, size));
      DirtyCutLosesATick(server, history, count, size, m);
    }
  }

  /** One tick per epoch is enough. */
  lemma {:induction false} OneTickPerEpoch(server: Server, history: seq<Tick>, count: nat, size: nat)
    requires IsHistory(history) && Honest(server, history) && size > 0
    requires forall i, j :: 0 <= i < j < |history| ==> history[i].Epoch() != history[j].Epoch()
    ensures PagedHistory(server, count, size).0 == Query(history, count, None) == Last(history, count)
  {
    forall m | 1 <= m && Times(m, size) < count ensures CleanCut(history, Times(m, size)) {
      var i := |history| - Times(m, size);
      assert 0 < i < |history| ==> history[i - 1].Epoch() <= history[i].Epoch();
    }
    PagedIsOneQuery(server, history, count, size);
    assert history[..|history|] == history;
  }
}
