/** The auth server's reply cache, `_dispatch_cached` (apps/auth_agent/server.py): an ordered
    dictionary of answered message ids, least recently used first. */
module ReplyCache {
  import opened Optional

  const MAX_CACHED_RESPONSES: nat := 128

  datatype Request = Request(messageId: string, correlationId: string, messageType: string, payload: string)

  /** The digest of a request: injective in everything it covers, and it does not cover the id. */
  datatype Fingerprint = Fingerprint(correlationId: string, messageType: string, payload: string)

  function FingerprintOf(r: Request): Fingerprint {
    Fingerprint(r.correlationId, r.messageType, r.payload)
  }

  datatype Entry = Entry(id: string, fingerprint: Fingerprint, response: string)

  /** `dispatched` tells whether `_dispatch` ran to produce this answer. */
  datatype Reply = Answered(response: string, dispatched: bool) | Conflict | Raised

  // ---------------------------------------------------------------- one request

  function IndexOf(entries: seq<Entry>, id: string): (i: nat)
    ensures i <= |entries|
    ensures i < |entries| ==> entries[i].id == id
    ensures forall j :: 0 <= j < i ==> entries[j].id != id
  {
    if entries == [] || entries[0].id == id then 0 else 1 + IndexOf(entries[1..], id)
  }

  predicate Holds(entries: seq<Entry>, id: string) {
    IndexOf(entries, id) < |entries|
  }

  function MovedToEnd(entries: seq<Entry>, i: nat): seq<Entry>
    requires i < |entries|
  {
    entries[..i] + entries[i + 1..] + [entries[i]]
  }

  function Trimmed(entries: seq<Entry>): seq<Entry> {
    if |entries| <= MAX_CACHED_RESPONSES then entries else entries[|entries| - MAX_CACHED_RESPONSES..]
  }

  /** `outcome` is what `_dispatch` would do with the request now: answer, or raise (None). */
  function Serve(entries: seq<Entry>, r: Request, outcome: Option<string>): (seq<Entry>, Reply) {
    var i := IndexOf(entries, r.messageId);
    if i < |entries| then
      if entries[i].fingerprint != FingerprintOf(r) then (entries, Conflict)
      else (MovedToEnd(entries, i), Answered(entries[i].response, false))
    else if outcome.None? then (entries, Raised)
    else
      (Trimmed(entries + [Entry(r.messageId, FingerprintOf(r), outcome.value)]), Answered(outcome.value, true))
  }

  class Cache {
    var entries: seq<Entry>

    constructor ()
      ensures entries == []
    {
      entries := [];
    }

    method DispatchCached(r: Request, outcome: Option<string>) returns (reply: Reply)
      modifies this
      ensures (entries, reply) == Serve(old(entries), r, outcome)
    {
      var i := IndexOf(entries, r.messageId);
      if i < |entries| {
        if entries[i].fingerprint != FingerprintOf(r) {
          return Conflict;
        }
        var response := entries[i].response;
        entries := MovedToEnd(entries, i);
        return Answered(response, false);
      }
      if outcome.None? {
        return Raised;
      }
      entries := entries + [Entry(r.messageId, FingerprintOf(r), outcome.value)];
      ghost var grown := entries;
      while |entries| > MAX_CACHED_RESPONSES
        invariant Trimmed(entries) == Trimmed(grown)
        decreases |entries|
      {
        entries := entries[1..];
      }
      return Answered(outcome.value, true);
    }
  }

  // ---------------------------------------------------------------- whole runs

  datatype Event = Event(request: Request, outcome: Option<string>)

  /** The cache and every answer ever given, as the entry it was given from. */
  datatype State = State(entries: seq<Entry>, uses: seq<Entry>)

  function Next(s: State, e: Event): State {
    var (entries, reply) := Serve(s.entries, e.request, e.outcome);
    State(entries,
          if reply.Answered?
          then s.uses + [Entry(e.request.messageId, FingerprintOf(e.request), reply.response)] else s.uses)
  }

  function Run(events: seq<Event>): State {
    if events == [] then State([], []) else Next(Run(events[..|events| - 1]), events[|events| - 1])
  }

  /** The distinct other ids answered since `id` was last answered. */
  function OthersSince(uses: seq<Entry>, id: string): set<string> {
    if uses == [] || uses[|uses| - 1].id == id then {}
    else OthersSince(uses[..|uses| - 1], id) + {uses[|uses| - 1].id}
  }

  function LatestUse(uses: seq<Entry>, id: string): Option<Entry> {
    if uses == [] then None
    else if uses[|uses| - 1].id == id then Some(uses[|uses| - 1])
    else LatestUse(uses[..|uses| - 1], id)
  }

  function Ids(entries: seq<Entry>): set<string> {
    set e | e in entries :: e.id
  }

  predicate DistinctIds(entries: seq<Entry>) {
    forall i, j :: 0 <= i < j < |entries| ==> entries[i].id != entries[j].id
  }

  /** Every entry is the latest answer for its id, and the entries behind it are exactly the ids
      answered since. */
  ghost predicate InOrderOfUse(entries: seq<Entry>, uses: seq<Entry>) {
    forall p :: 0 <= p < |entries| ==>
      && LatestUse(uses, entries[p].id) == Some(entries[p])
      && OthersSince(uses, entries[p].id) == Ids(entries[p + 1..])
  }

  /** An id that was answered and is gone has 128 others answered since. */
  ghost predicate ForgottenIsOld(entries: seq<Entry>, uses: seq<Entry>) {
    forall id :: LatestUse(uses, id).Some? && !Holds(entries, id) ==> |OthersSince(uses, id)| >= MAX_CACHED_RESPONSES
  }

  ghost predicate Inv(s: State) {
    && DistinctIds(s.entries) && |s.entries| <= MAX_CACHED_RESPONSES
    && InOrderOfUse(s.entries, s.uses)
    && ForgottenIsOld(s.entries, s.uses)
  }

  lemma UseExtends(uses: seq<Entry>, e: Entry, id: string)
    ensures OthersSince(uses + [e], id) == if e.id == id then {} else OthersSince(uses, id) + {e.id}
    ensures LatestUse(uses + [e], id) == if e.id == id then Some(e) else LatestUse(uses, id)
  {
  }

  lemma {:induction false} IdCount(entries: seq<Entry>)
    requires DistinctIds(entries)
    ensures |Ids(entries)| == |entries|
  {
    if entries != [] {
      var rest, last := entries[..|entries| - 1], entries[|entries| - 1];
      IdCount(rest);
      assert entries == rest + [last];
      assert Ids(entries) == Ids(rest) + {last.id};
      LastIdIsNew(entries);
    }
  }

  lemma LastIdIsNew(entries: seq<Entry>)
    requires entries != [] && DistinctIds(entries)
    ensures entries[|entries| - 1].id !in Ids(entries[..|entries| - 1])
  {
  }

  lemma IdsOfConcat(a: seq<Entry>, b: seq<Entry>)
    ensures Ids(a + b) == Ids(a) + Ids(b)
  {
  }

  // A replay: the entry moves to the end.

  lemma ReplayMovesDistinct(entries: seq<Entry>, i: nat)
    requires DistinctIds(entries) && i < |entries|
    ensures DistinctIds(MovedToEnd(entries, i))
  {
  }

  lemma ReplayKeepsOrder(entries: seq<Entry>, uses: seq<Entry>, i: nat)
    requires DistinctIds(entries) && i < |entries| && InOrderOfUse(entries, uses)
    ensures InOrderOfUse(MovedToEnd(entries, i), uses + [entries[i]])
  {
    hide LatestUse, OthersSince, Ids, DistinctIds;
    var moved := MovedToEnd(entries, i);
    var e := entries[i];
    forall q | 0 <= q < |moved|
      ensures LatestUse(uses + [e], moved[q].id) == Some(moved[q])
      ensures OthersSince(uses + [e], moved[q].id) == Ids(moved[q + 1..])
    {
      UseExtends(uses, e, moved[q].id);
      if q == |moved| - 1 {
        assert moved[q + 1..] == [];
        NoIds();
      } else {
        var p := if q < i then q else q + 1;
        assert moved[q] == entries[p] && p != i;
        IdsDiffer(entries, p, i);
        MovedTail(entries, i, q);
      }
    }
  }

  lemma IdsDiffer(entries: seq<Entry>, p: nat, i: nat)
    requires DistinctIds(entries) && p < |entries| && i < |entries| && p != i
    ensures entries[p].id != entries[i].id
  {
  }

  lemma NoIds()
    ensures Ids([]) == {}
  {
  }

  /** The ids behind position `q` after the move: those behind it before, and the moved one. */
  lemma MovedTail(entries: seq<Entry>, i: nat, q: nat)
    requires i < |entries| && q < |entries| - 1
    ensures var p := if q < i then q else q + 1;
            Ids(MovedToEnd(entries, i)[q + 1..]) == Ids(entries[p + 1..]) + {entries[i].id}
  {
    var moved := MovedToEnd(entries, i);
    var e := entries[i];
    assert Ids([e]) == {e.id} by { assert e in [e]; }
    if q < i {
      var left, right := entries[q + 1..i], entries[i + 1..];
      assert moved[q + 1..] == (left + right) + [e];
      assert entries[q + 1..] == left + ([e] + right);
      IdsOfConcat(left + right, [e]);
      IdsOfConcat(left, right);
      IdsOfConcat(left, [e] + right);
      IdsOfConcat([e], right);
    } else {
      assert moved[q + 1..] == entries[q + 2..] + [e];
      IdsOfConcat(entries[q + 2..], [e]);
    }
  }

  lemma ReplayHolds(entries: seq<Entry>, i: nat, id: string)
    requires i < |entries|
    ensures Holds(MovedToEnd(entries, i), id) <==> Holds(entries, id)
  {
    var moved := MovedToEnd(entries, i);
    if Holds(entries, id) {
      var k := IndexOf(entries, id);
      assert moved[if k < i then k else if k == i then |entries| - 1 else k - 1] == entries[k];
    }
    if Holds(moved, id) {
      var k := IndexOf(moved, id);
      assert moved[k] == entries[if k < i then k else if k < |entries| - 1 then k + 1 else i];
    }
  }

  lemma {:induction false} ReplayKeepsInv(s: State, i: nat)
    requires Inv(s) && i < |s.entries|
    ensures Inv(State(MovedToEnd(s.entries, i), s.uses + [s.entries[i]]))
  {
    ReplayMovesDistinct(s.entries, i);
    ReplayKeepsOrder(s.entries, s.uses, i);
    hide DistinctIds, InOrderOfUse, OthersSince, LatestUse, Holds, IndexOf;
    forall id | LatestUse(s.uses + [s.entries[i]], id).Some? && !Holds(MovedToEnd(s.entries, i), id)
      ensures |OthersSince(s.uses + [s.entries[i]], id)| >= MAX_CACHED_RESPONSES
    {
      ReplayHolds(s.entries, i, id);
      UseExtends(s.uses, s.entries[i], id);
      HeldAt(s.entries, i);
      MoreIds(OthersSince(s.uses, id), s.entries[i].id);
    }
  }

  lemma HeldAt(entries: seq<Entry>, i: nat)
    requires i < |entries|
    ensures Holds(entries, entries[i].id)
  {
  }

  lemma MoreIds(ids: set<string>, id: string)
    ensures |ids + {id}| >= |ids|
  {
    assert ids + {id} == if id in ids then ids else ids + {id};
  }

  // A new answer: appended, and the oldest entry leaves a full cache.

  lemma AppendKeepsOrder(entries: seq<Entry>, uses: seq<Entry>, e: Entry)
    requires InOrderOfUse(entries, uses) && !Holds(entries, e.id)
    ensures InOrderOfUse(entries + [e], uses + [e])
  {
    hide LatestUse, OthersSince, Ids, Holds;
    var grown := entries + [e];
    forall q | 0 <= q < |grown|
      ensures LatestUse(uses + [e], grown[q].id) == Some(grown[q])
      ensures OthersSince(uses + [e], grown[q].id) == Ids(grown[q + 1..])
    {
      UseExtends(uses, e, grown[q].id);
      if q == |entries| {
        assert grown[q + 1..] == [];
        NoIds();
      } else {
        HeldAt(entries, q);
        assert grown[q + 1..] == entries[q + 1..] + [e];
        IdsOfConcat(entries[q + 1..], [e]);
        OneId(e);
      }
    }
  }

  lemma OneId(e: Entry)
    ensures Ids([e]) == {e.id}
  {
  }

  lemma DropFirstKeepsOrder(entries: seq<Entry>, uses: seq<Entry>)
    requires entries != [] && InOrderOfUse(entries, uses)
    ensures InOrderOfUse(entries[1..], uses)
  {
  }

  lemma AppendDistinct(entries: seq<Entry>, e: Entry)
    requires DistinctIds(entries) && !Holds(entries, e.id)
    ensures DistinctIds(entries + [e])
  {
  }

  lemma AppendHolds(entries: seq<Entry>, e: Entry, id: string)
    ensures Holds(entries + [e], id) <==> Holds(entries, id) || e.id == id
  {
    var grown := entries + [e];
    assert grown[|entries|] == e;
    if Holds(entries, id) {
      assert grown[IndexOf(entries, id)].id == id;
    }
    if Holds(grown, id) {
      var k := IndexOf(grown, id);
      assert k < |entries| ==> entries[k] == grown[k];
    }
  }

  /** Forgetting is justified before trimming: nothing has left yet. */
  lemma AppendForgetsOld(entries: seq<Entry>, uses: seq<Entry>, e: Entry, id: string)
    requires ForgottenIsOld(entries, uses)
    requires LatestUse(uses + [e], id).Some? && !Holds(entries + [e], id)
    ensures |OthersSince(uses + [e], id)| >= MAX_CACHED_RESPONSES
  {
    hide LatestUse, OthersSince, Holds;
    AppendHolds(entries, e, id);
    UseExtends(uses, e, id);
    MoreIds(OthersSince(uses, id), e.id);
  }

  lemma {:induction false} AppendKeepsInv(s: State, e: Entry)
    requires Inv(s) && !Holds(s.entries, e.id)
    ensures Inv(State(Trimmed(s.entries + [e]), s.uses + [e]))
  {
    var grown, uses := s.entries + [e], s.uses + [e];
    AppendKeepsOrder(s.entries, s.uses, e);
    AppendDistinct(s.entries, e);
    forall id | LatestUse(uses, id).Some? && !Holds(grown, id) ensures |OthersSince(uses, id)| >= MAX_CACHED_RESPONSES {
      AppendForgetsOld(s.entries, s.uses, e, id);
    }
    if |grown| > MAX_CACHED_RESPONSES {
      EvictionKeepsInv(grown, uses);
    }
  }

  lemma EvictionKeepsInv(grown: seq<Entry>, uses: seq<Entry>)
    requires |grown| == MAX_CACHED_RESPONSES + 1 && DistinctIds(grown)
    requires InOrderOfUse(grown, uses) && ForgottenIsOld(grown, uses)
    ensures Inv(State(Trimmed(grown), uses))
  {
    var kept := grown[1..];
    assert Trimmed(grown) == kept;
    DropFirstKeepsOrder(grown, uses);
    assert DistinctIds(kept);
    IdCount(kept);
    assert OthersSince(uses, grown[0].id) == Ids(grown[0 + 1..]) == Ids(kept);
    hide LatestUse, OthersSince, Ids, DistinctIds, InOrderOfUse;
    forall id | LatestUse(uses, id).Some? && !Holds(kept, id) ensures |OthersSince(uses, id)| >= MAX_CACHED_RESPONSES {
      if Holds(grown, id) {
        OnlyFirstLeaves(grown, id);
      }
    }
  }

  lemma OnlyFirstLeaves(grown: seq<Entry>, id: string)
    requires Holds(grown, id) && !Holds(grown[1..], id)
    ensures id == grown[0].id
  {
  }

  lemma NextKeepsInv(s: State, e: Event)
    requires Inv(s)
    ensures Inv(Next(s, e))
  {
    hide Inv, Trimmed, MovedToEnd, IndexOf;
    var i := IndexOf(s.entries, e.request.messageId);
    var entry := Entry(e.request.messageId, FingerprintOf(e.request), if e.outcome.Some? then e.outcome.value else "");
    if i < |s.entries| && s.entries[i].fingerprint == FingerprintOf(e.request) {
      ReplayKeepsInv(s, i);
    } else if i == |s.entries| && e.outcome.Some? {
      AppendKeepsInv(s, entry);
    }
  }

  lemma {:induction false} RunKeepsInv(events: seq<Event>)
    ensures Inv(Run(events))
  {
    hide Inv, Next;
    if events == [] {
      EmptyIsFine();
    } else {
      RunKeepsInv(events[..|events| - 1]);
      NextKeepsInv(Run(events[..|events| - 1]), events[|events| - 1]);
    }
  }

  lemma EmptyIsFine()
    ensures Inv(State([], []))
  {
  }

  // ---------------------------------------------------------------- what the cache promises

  /** In every run the cache holds exactly the ids answered before with fewer than 128 distinct
      other ids answered since; each with the latest answer given for it. */
  lemma {:induction false} HoldsTheMostRecent(events: seq<Event>, id: string)
    ensures var s := Run(events);
            && |s.entries| <= MAX_CACHED_RESPONSES && DistinctIds(s.entries)
            && (Holds(s.entries, id) <==>
                  LatestUse(s.uses, id).Some? && |OthersSince(s.uses, id)| < MAX_CACHED_RESPONSES)
            && (Holds(s.entries, id) ==> Some(s.entries[IndexOf(s.entries, id)]) == LatestUse(s.uses, id))
  {
    RunKeepsInv(events);
    hide Run;
    var s := Run(events);
    if Holds(s.entries, id) {
      var p := IndexOf(s.entries, id);
      assert DistinctIds(s.entries[p + 1..]);
      IdCount(s.entries[p + 1..]);
      assert OthersSince(s.uses, s.entries[p].id) == Ids(s.entries[p + 1..]);
    }
  }

  /** `_dispatch` runs again for an id answered before only when at least 128 distinct other ids
      have been answered since; until then an identical request gets the stored answer back, and a
      different one is refused and changes nothing. */
  lemma {:induction false} ReplayIsIdempotent(events: seq<Event>, e: Event)
    requires LatestUse(Run(events).uses, e.request.messageId).Some?
    ensures var s := Run(events);
            var last := LatestUse(s.uses, e.request.messageId).value;
            var (entries, reply) := Serve(s.entries, e.request, e.outcome);
            if |OthersSince(s.uses, e.request.messageId)| >= MAX_CACHED_RESPONSES then
              reply == (if e.outcome.Some? then Answered(e.outcome.value, true) else Raised)
            else if last.fingerprint == FingerprintOf(e.request) then
              reply == Answered(last.response, false)
            else
              reply == Conflict && entries == s.entries
  {
    HoldsTheMostRecent(events, e.request.messageId);
    hide Run, LatestUse, OthersSince;
  }
}
