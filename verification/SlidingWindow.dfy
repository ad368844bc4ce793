/** Admission histories and half-open time windows over them. */
module SlidingWindow {

  predicate Ascending(ts: seq<real>) {
    forall i, j :: 0 <= i <= j < |ts| ==> ts[i] <= ts[j]
  }

  /** The entries strictly after `bound`, in order. */
  function After(ts: seq<real>, bound: real): seq<real> {
    if ts == [] then []
    else (if ts[0] > bound then [ts[0]] else []) + After(ts[1..], bound)
  }

  /** What is left when entries at or before `bound` are popped from the front. */
  function DropExpired(ts: seq<real>, bound: real): seq<real> {
    if ts != [] && ts[0] <= bound then DropExpired(ts[1..], bound) else ts
  }

  /** A half-open window: [low, high) when `closedLow`, else (low, high]. */
  datatype Window = Window(low: real, high: real, closedLow: bool) {
    predicate Contains(t: real) {
      if closedLow then low <= t < high else low < t <= high
    }
  }

  function Inside(ts: seq<real>, w: Window): seq<real> {
    if ts == [] then []
    else (if w.Contains(ts[0]) then [ts[0]] else []) + Inside(ts[1..], w)
  }

  /** Any `limit + 1` entries in a row span at least `width`. */
  predicate Spaced(ts: seq<real>, limit: nat, width: real) {
    forall i :: 0 <= i < |ts| - limit ==> ts[i] + width <= ts[i + limit]
  }

  lemma {:induction false} AfterIsSuffix(ts: seq<real>, bound: real) returns (k: nat)
    requires Ascending(ts)
    ensures k <= |ts| && After(ts, bound) == ts[k..]
    ensures forall i :: 0 <= i < k ==> ts[i] <= bound
    ensures forall i :: k <= i < |ts| ==> ts[i] > bound
  {
    if ts == [] || ts[0] > bound {
      k := 0;
      AfterKeepsAll(ts, bound);
    } else {
      k := AfterIsSuffix(ts[1..], bound);
      k := k + 1;
      ShiftedSuffix(ts, bound, k);
    }
  }

  lemma ShiftedSuffix(ts: seq<real>, bound: real, k: nat)
    requires 0 < k <= |ts| && ts[0] <= bound
    requires forall i :: 0 <= i < k - 1 ==> ts[1..][i] <= bound
    requires forall i :: k - 1 <= i < |ts| - 1 ==> ts[1..][i] > bound
    ensures ts[1..][k - 1..] == ts[k..]
    ensures forall i :: 0 <= i < k ==> ts[i] <= bound
    ensures forall i :: k <= i < |ts| ==> ts[i] > bound
  {
  }

  lemma {:induction false} AfterKeepsAll(ts: seq<real>, bound: real)
    requires forall i :: 0 <= i < |ts| ==> ts[i] > bound
    ensures After(ts, bound) == ts
  {
    if ts != [] {
      AfterKeepsAll(ts[1..], bound);
    }
  }

  lemma {:induction false} AfterDropsAll(ts: seq<real>, bound: real)
    requires forall i :: 0 <= i < |ts| ==> ts[i] <= bound
    ensures After(ts, bound) == []
  {
    if ts != [] {
      AfterDropsAll(ts[1..], bound);
    }
  }

  /** Entries already outside the window do not matter to it. */
  lemma {:induction false} AfterForgets(ts: seq<real>, dropped: nat, bound: real)
    requires dropped <= |ts|
    requires forall i :: 0 <= i < dropped ==> ts[i] <= bound
    ensures After(ts, bound) == After(ts[dropped..], bound)
  {
    if dropped > 0 {
      AfterForgets(ts[1..], dropped - 1, bound);
      assert ts[1..][dropped - 1..] == ts[dropped..];
    }
  }

  lemma {:induction false} AfterOfAppend(ts: seq<real>, t: real, bound: real)
    requires t > bound
    ensures After(ts + [t], bound) == After(ts, bound) + [t]
  {
    if ts != [] {
      assert (ts + [t])[1..] == ts[1..] + [t];
      AfterOfAppend(ts[1..], t, bound);
    }
  }

  lemma {:induction false} DropExpiredIsAfter(ts: seq<real>, bound: real)
    requires Ascending(ts)
    ensures DropExpired(ts, bound) == After(ts, bound)
  {
    if ts != [] && ts[0] <= bound {
      DropExpiredIsAfter(ts[1..], bound);
    } else {
      AfterKeepsAll(ts, bound);
    }
  }

  lemma {:induction false} InsideIsSlice(ts: seq<real>, w: Window) returns (i: nat, j: nat)
    requires Ascending(ts)
    ensures i <= j <= |ts| && Inside(ts, w) == ts[i..j]
    ensures forall k :: 0 <= k < |ts| ==> (w.Contains(ts[k]) <==> i <= k < j)
  {
    if ts == [] {
      i, j := 0, 0;
    } else {
      i, j := InsideIsSlice(ts[1..], w);
      assert forall k :: 0 < k < |ts| ==> ts[k] == ts[1..][k - 1];
      if !w.Contains(ts[0]) {
        assert ts[i + 1..j + 1] == ts[1..][i..j];
        i, j := i + 1, j + 1;
      } else if i == j {
        i, j := 0, 1;
      } else {
        assert w.Contains(ts[i + 1]) && w.Contains(ts[1]);
        assert i == 0;
        assert ts[0..j + 1] == [ts[0]] + ts[1..][0..j];
        j := j + 1;
      }
    }
  }

  /** Spacing is exactly what bounds the number of entries in every window of that width. */
  lemma SpacedBoundsWindows(ts: seq<real>, limit: nat, w: Window)
    requires Ascending(ts) && Spaced(ts, limit, w.high - w.low)
    ensures |Inside(ts, w)| <= limit
  {
    var i, j := InsideIsSlice(ts, w);
    if i + limit < |ts| {
      assert ts[i] + (w.high - w.low) <= ts[i + limit];
    }
  }

  /** Admitting at `now` with fewer than `limit` live entries keeps the spacing. */
  lemma AdmissionKeepsSpacing(ts: seq<real>, limit: nat, width: real, now: real)
    requires Ascending(ts) && Spaced(ts, limit, width)
    requires forall i :: 0 <= i < |ts| ==> ts[i] <= now
    requires |After(ts, now - width)| < limit
    ensures Ascending(ts + [now]) && Spaced(ts + [now], limit, width)
  {
    var k := AfterIsSuffix(ts, now - width);
    var grown := ts + [now];
    if |ts| >= limit {
      assert ts[|ts| - limit] <= now - width;
    }
  }

  /** Spacing also caps the live entries, so a full window is exactly full. */
  lemma LiveEntriesAreCapped(ts: seq<real>, limit: nat, width: real, now: real)
    requires Ascending(ts) && Spaced(ts, limit, width)
    requires forall i :: 0 <= i < |ts| ==> ts[i] <= now
    ensures |After(ts, now - width)| <= limit
  {
    var k := AfterIsSuffix(ts, now - width);
    if |ts| > limit {
      var i := |ts| - limit - 1;
      assert ts[i] + width <= ts[i + limit] <= now;
    }
  }
}
