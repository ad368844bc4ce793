/** The gate every new order passes (apps/core/health.py): global blockers, blockers of one broker
    account, broker-wide market-data blockers, and the health of the database. */
module HealthGate {
  import opened Optional

  const MARKET_DATA := "market-data"

  datatype Database = Unwatched | Healthy | Unhealthy(reason: Option<string>)

  datatype Gate = Gate(blockers: set<string>, scoped: map<(string, string), set<string>>, database: Database)

  datatype HealthState = Open | Closed(reason: string)

  /** Reasons in the order in which they are reported. */
  function Priority(): seq<string> {
    ["DB_NOT_CHECKED", "DB_SCHEMA_CORRUPT", "DB_JOURNAL_CORRUPT", "DB_FOREIGN_KEY_VIOLATION", "DB_CHECKPOINT_FAILED",
     "DB_WRITE_FAILED", "HG_SAFE_STOP", "HG_DAILY_STOP_REACHED", "HG_DAILY_TAKE_PROFIT_REACHED", "HG_COOLDOWN_ACTIVE",
     "HG_AUTH_AGENT_UNAVAILABLE", "HG_LEASE_EXPIRED", "HG_LEASE_REVOKED", "HG_ORDER_EVENT_CONFLICT",
     "HG_ORDER_EVENT_GAP", "HG_BROKER_EVENT_BACKPRESSURE", "HG_RECONCILIATION_CONFLICT", "HG_SETTLEMENT_REQUIRED",
     "HG_SETTLEMENT_UNKNOWN", "HG_ORDER_UNKNOWN", "HG_EXPOSURE_UNKNOWN", "HG_EXPOSURE_CURRENCY_MISMATCH",
     "HG_RECONCILIATION_UNAVAILABLE", "HG_RECONCILIATION_REQUIRED", "HG_WORKER_INCOMPATIBLE",
     "HG_WORKER_CIRCUIT_OPEN", "HG_WORKER_DISCONNECTED", "HG_WORKER_NOT_READY", "HG_MARKET_DATA_DISCONNECTED",
     "MD_CLOCK_UNTRUSTED"]
  }

  /** Upper case of the ASCII letters, which is what broker names are made of. */
  function Upper(s: string): string {
    seq(|s|, i requires 0 <= i < |s| => if 'a' <= s[i] <= 'z' then s[i] - 'a' + 'A' else s[i])
  }

  function Key(broker: string, account: string): (string, string) {
    (Upper(broker), account)
  }

  predicate SameLetter(a: char, b: char) {
    a == b || ('a' <= a <= 'z' && b == a - 'a' + 'A') || ('a' <= b <= 'z' && a == b - 'a' + 'A')
  }

  /** Two scopes are one exactly when their accounts are equal and their brokers differ in case at most. */
  lemma KeysFoldCase(broker: string, account: string, other: string, otherAccount: string)
    ensures Key(broker, account) == Key(other, otherAccount) <==>
            && account == otherAccount && |broker| == |other|
            && forall i :: 0 <= i < |broker| ==> SameLetter(broker[i], other[i])
  {
    if Upper(broker) == Upper(other) {
      forall i | 0 <= i < |broker| ensures SameLetter(broker[i], other[i]) {
        assert Upper(broker)[i] == Upper(other)[i];
      }
    }
  }

  // ---------------------------------------------------------------- the reason reported

  predicate NotAfter(a: string, b: string) {
    a == [] || (b != [] && (a[0] < b[0] || (a[0] == b[0] && NotAfter(a[1..], b[1..]))))
  }

  lemma {:induction false} NotAfterIsTotal(a: string, b: string)
    ensures NotAfter(a, b) || NotAfter(b, a)
    ensures NotAfter(a, b) && NotAfter(b, a) ==> a == b
  {
    if a != [] && b != [] {
      NotAfterIsTotal(a[1..], b[1..]);
      assert a == [a[0]] + a[1..] && b == [b[0]] + b[1..];
    }
  }

  lemma {:induction false} NotAfterIsTransitive(a: string, b: string, c: string)
    requires NotAfter(a, b) && NotAfter(b, c)
    ensures NotAfter(a, c)
  {
    if a != [] && a[0] == b[0] == c[0] {
      NotAfterIsTransitive(a[1..], b[1..], c[1..]);
    }
  }

  /** `reason` is the first of the priority list among `reasons`, or, if none is listed, the
      alphabetically first. */
  predicate IsFirst(priority: seq<string>, reasons: set<string>, reason: string) {
    && reason in reasons
    && ((exists i :: 0 <= i < |priority| && priority[i] == reason && NoneOf(priority[..i], reasons))
        || (NoneOf(priority, reasons) && forall other :: other in reasons ==> NotAfter(reason, other)))
  }

  predicate NoneOf(listed: seq<string>, reasons: set<string>) {
    forall j :: 0 <= j < |listed| ==> listed[j] !in reasons
  }

  predicate Answers(reasons: set<string>, state: HealthState) {
    if reasons == {} then state == Open
    else state.Closed? && IsFirst(Priority(), reasons, state.reason)
  }

  lemma NoneBefore(priority: seq<string>, i: nat, reasons: set<string>, j: nat)
    requires i <= |priority| && NoneOf(priority[..i], reasons)
    ensures j < i ==> priority[j] !in reasons
  {
  }

  lemma FirstIsUnique(priority: seq<string>, reasons: set<string>, a: string, b: string)
    requires IsFirst(priority, reasons, a) && IsFirst(priority, reasons, b)
    ensures a == b
  {
    hide NotAfter;
    NotAfterIsTotal(a, b);
    if !NoneOf(priority, reasons) {
      var i :| 0 <= i < |priority| && priority[i] == a && NoneOf(priority[..i], reasons);
      var j :| 0 <= j < |priority| && priority[j] == b && NoneOf(priority[..j], reasons);
      NoneBefore(priority, i, reasons, j);
      NoneBefore(priority, j, reasons, i);
    }
  }

  /** A set of reasons has one answer. */
  lemma AnswersAreUnique(reasons: set<string>, s: HealthState, t: HealthState)
    requires Answers(reasons, s) && Answers(reasons, t)
    ensures s == t
  {
    hide Priority, IsFirst;
    if reasons != {} {
      FirstIsUnique(Priority(), reasons, s.reason, t.reason);
    }
  }

  method Earliest(reasons: set<string>) returns (reason: string)
    requires reasons != {}
    ensures reason in reasons && forall other :: other in reasons ==> NotAfter(reason, other)
  {
    reason :| reason in reasons;
    NotAfterIsTotal(reason, reason);
    var rest := reasons - {reason};
    while rest != {}
      invariant rest <= reasons && reason in reasons
      invariant forall other :: other in reasons - rest ==> NotAfter(reason, other)
    {
      hide NotAfter;
      var next :| next in rest;
      NotAfterIsTotal(reason, next);
      NotAfterIsTotal(next, next);
      if !NotAfter(reason, next) {
        forall other | other in reasons - rest ensures NotAfter(next, other) {
          NotAfterIsTransitive(next, reason, other);
        }
        reason := next;
      }
      rest := rest - {next};
    }
  }

  method StateFromReasons(reasons: set<string>) returns (state: HealthState)
    ensures Answers(reasons, state)
  {
    hide Priority, NotAfter;
    if reasons == {} {
      return Open;
    }
    var priority := Priority();
    for i := 0 to |priority|
      invariant NoneOf(priority[..i], reasons)
    {
      if priority[i] in reasons {
        return Closed(priority[i]);
      }
    }
    assert priority[..|priority|] == priority;
    var first := Earliest(reasons);
    return Closed(first);
  }

  // ---------------------------------------------------------------- facts

  /** What the gate knows, without how it keeps it. */
  datatype Fact = Everywhere(reason: string) | At(scope: (string, string), reason: string)

  function Facts(g: Gate): set<Fact> {
    (set r | r in g.blockers :: Everywhere(r)) + set k, r | k in g.scoped && r in g.scoped[k] :: At(k, r)
  }

  function GlobalReasons(facts: set<Fact>): set<string> {
    set f | f in facts && f.Everywhere? :: f.reason
  }

  function ScopeReasons(facts: set<Fact>, scope: (string, string)): set<string> {
    set f | f in facts && f.At? && f.scope == scope :: f.reason
  }

  function AllReasons(facts: set<Fact>): set<string> {
    set f | f in facts :: f.reason
  }

  /** The reasons that hold an account: the global ones if there are any; otherwise its own and, for
      every account but market data itself, the market-data ones of its broker. */
  function Relevant(facts: set<Fact>, broker: string, account: string): set<string> {
    if GlobalReasons(facts) != {} then GlobalReasons(facts)
    else ScopeReasons(facts, Key(broker, account)) + ScopeReasons(facts, Key(broker, MARKET_DATA))
  }

  function DatabaseReason(database: Database): Option<string> {
    match database
    case Unhealthy(Some(reason)) => Some(reason)
    case Unhealthy(None) => Some("DB_NOT_CHECKED")
    case _ => None
  }

  /** The database answers before any blocker does. */
  predicate AnswersWith(database: Database, reasons: set<string>, state: HealthState) {
    if DatabaseReason(database).Some? then state == Closed(DatabaseReason(database).value)
    else Answers(reasons, state)
  }

  // ---------------------------------------------------------------- changes

  function Blocked(g: Gate, reason: string): Gate {
    g.(blockers := g.blockers + {reason})
  }

  function Cleared(g: Gate, reason: string): Gate {
    Gate(g.blockers - {reason}, map k | k in g.scoped :: g.scoped[k] - {reason}, g.database)
  }

  function BlockersAt(g: Gate, key: (string, string)): set<string> {
    if key in g.scoped then g.scoped[key] else {}
  }

  function BlockedAt(g: Gate, broker: string, account: string, reason: string): Gate {
    var key := Key(broker, account);
    g.(scoped := g.scoped[key := BlockersAt(g, key) + {reason}])
  }

  function ClearedAt(g: Gate, broker: string, account: string, reason: string): Gate {
    var key := Key(broker, account);
    if key !in g.scoped then g
    else if g.scoped[key] - {reason} == {} then g.(scoped := g.scoped - {key})
    else g.(scoped := g.scoped[key := g.scoped[key] - {reason}])
  }

  /** An empty reason counts as none. */
  function ReasonOr(reason: Option<string>, other: string): string {
    if reason.Some? && reason.value != "" then reason.value else other
  }

  function DatabaseFailed(g: Gate, reason: string): Gate {
    Blocked(g.(database := if g.database.Unwatched? then Unwatched else Unhealthy(Some(reason))), reason)
  }

  lemma BlockedFacts(g: Gate, reason: string)
    ensures Facts(Blocked(g, reason)) == Facts(g) + {Everywhere(reason)}
  {
  }

  lemma ClearedFacts(g: Gate, reason: string)
    ensures Facts(Cleared(g, reason)) == set f | f in Facts(g) && f.reason != reason
  {
  }

  lemma BlockedAtFacts(g: Gate, broker: string, account: string, reason: string)
    ensures Facts(BlockedAt(g, broker, account, reason)) == Facts(g) + {At(Key(broker, account), reason)}
  {
  }

  lemma ClearedAtFacts(g: Gate, broker: string, account: string, reason: string)
    ensures Facts(ClearedAt(g, broker, account, reason)) == Facts(g) - {At(Key(broker, account), reason)}
  {
    hide Upper;
    var after, key := ClearedAt(g, broker, account, reason), Key(broker, account);
    forall k, r ensures At(k, r) in Facts(after) <==> At(k, r) in Facts(g) && !(k == key && r == reason) {
      if k in g.scoped && r in g.scoped[k] && !(k == key && r == reason) {
        assert k == key ==> r in g.scoped[key] - {reason};
      }
    }
  }

  // ---------------------------------------------------------------- the gate object

  class HealthGate {
    var blockers: set<string>
    var scoped: map<(string, string), set<string>>
    var database: Database

    function Value(): Gate
      reads this
    {
      Gate(blockers, scoped, database)
    }

    constructor (database: Database)
      ensures Value() == Gate({}, map[], database) && Facts(Value()) == {}
    {
      blockers, scoped := {}, map[];
      this.database := database;
    }

    method GlobalState() returns (state: HealthState)
      ensures AnswersWith(database, GlobalReasons(Facts(Value())), state)
    {
      hide Answers;
      var failed := DatabaseReason(database);
      if failed.Some? {
        return Closed(failed.value);
      }
      GlobalsAre(Value());
      state := StateFromReasons(blockers);
    }

    method WholeState() returns (state: HealthState)
      ensures AnswersWith(database, AllReasons(Facts(Value())), state)
    {
      hide Answers;
      var failed := DatabaseReason(database);
      if failed.Some? {
        return Closed(failed.value);
      }
      var reasons, keys := blockers, scoped.Keys;
      while keys != {}
        invariant keys <= scoped.Keys
        invariant reasons == blockers + set k, r | k in scoped.Keys - keys && r in scoped[k] :: r
      {
        var key :| key in keys;
        reasons := reasons + scoped[key];
        keys := keys - {key};
      }
      AllAre(Value());
      assert reasons == AllReasons(Facts(Value()));
      state := StateFromReasons(reasons);
    }

    method StateFor(broker: string, account: string) returns (state: HealthState)
      ensures AnswersWith(database, Relevant(Facts(Value()), broker, account), state)
    {
      hide Answers, Upper;
      var failed := DatabaseReason(database);
      if failed.Some? {
        return Closed(failed.value);
      }
      GlobalsAre(Value());
      if blockers != {} {
        state := StateFromReasons(blockers);
        return;
      }
      var key := Key(broker, account);
      var reasons := BlockersAt(Value(), key);
      ScopeIs(Value(), key);
      if account != MARKET_DATA {
        reasons := reasons + BlockersAt(Value(), Key(broker, MARKET_DATA));
        ScopeIs(Value(), Key(broker, MARKET_DATA));
      }
      assert reasons == Relevant(Facts(Value()), broker, account);
      state := StateFromReasons(reasons);
    }

    /** `can_enter_order` asks the global state first, but its answer is that of the account. */
    method CanEnterOrder(broker: string, account: string) returns (state: HealthState)
      ensures AnswersWith(database, Relevant(Facts(Value()), broker, account), state)
    {
      hide Priority, IsFirst, Upper, Facts;
      state := GlobalState();
      if state == Open {
        state := StateFor(broker, account);
      }
    }

    /** The error is a scope with only one half; otherwise the answer decides. */
    method EnsureOpen(broker: Option<string>, account: Option<string>) returns (halfScope: bool, state: HealthState)
      ensures halfScope == (broker.Some? != account.Some?)
      ensures broker.Some? && account.Some? ==>
                AnswersWith(database, Relevant(Facts(Value()), broker.value, account.value), state)
      ensures broker.None? && account.None? ==> AnswersWith(database, GlobalReasons(Facts(Value())), state)
    {
      if broker.Some? != account.Some? {
        return true, Open;
      }
      halfScope := false;
      if broker.Some? {
        state := CanEnterOrder(broker.value, account.value);
      } else {
        state := GlobalState();
      }
    }

    method Contains(reason: string) returns (found: bool)
      ensures found == (reason in AllReasons(Facts(Value())))
    {
      AllAre(Value());
      found := reason in blockers || exists k :: k in scoped && reason in scoped[k];
    }

    method Block(reason: string)
      modifies this
      ensures Value() == Blocked(old(Value()), reason)
      ensures Facts(Value()) == old(Facts(Value())) + {Everywhere(reason)}
    {
      BlockedFacts(Value(), reason);
      blockers := blockers + {reason};
    }

    method ClearIf(reason: string)
      modifies this
      ensures Value() == Cleared(old(Value()), reason)
      ensures Facts(Value()) == set f | f in old(Facts(Value())) && f.reason != reason
    {
      ClearedFacts(Value(), reason);
      hide Facts;
      ghost var first := scoped;
      blockers := blockers - {reason};
      var keys := scoped.Keys;
      while keys != {}
        invariant keys <= first.Keys == scoped.Keys
        invariant forall k :: k in first ==> scoped[k] == if k in keys then first[k] else first[k] - {reason}
        invariant blockers == old(blockers) - {reason} && database == old(database)
      {
        var key :| key in keys;
        scoped := scoped[key := scoped[key] - {reason}];
        keys := keys - {key};
      }
    }

    method BlockScope(broker: string, account: string, reason: string)
      modifies this
      ensures Value() == BlockedAt(old(Value()), broker, account, reason)
      ensures Facts(Value()) == old(Facts(Value())) + {At(Key(broker, account), reason)}
    {
      BlockedAtFacts(Value(), broker, account, reason);
      hide Facts, Upper;
      var key := Key(broker, account);
      scoped := scoped[key := BlockersAt(Value(), key) + {reason}];
    }

    method ClearScope(broker: string, account: string, reason: string)
      modifies this
      ensures Value() == ClearedAt(old(Value()), broker, account, reason)
      ensures Facts(Value()) == old(Facts(Value())) - {At(Key(broker, account), reason)}
    {
      ClearedAtFacts(Value(), broker, account, reason);
      hide Facts, Upper;
      var key := Key(broker, account);
      if key !in scoped {
        return;
      }
      var left := scoped[key] - {reason};
      if left == {} {
        scoped := scoped - {key};
      } else {
        scoped := scoped[key := left];
      }
    }

    method RegisterBrokerHealth(broker: string, account: string, ready: bool, reason: Option<string>)
      modifies this
      ensures blockers == old(blockers) && database == old(database)
      ensures Facts(Value()) ==
                if !ready then
                  old(Facts(Value())) +
                  {At(Key(broker, account), ReasonOr(reason, "HG_WORKER_DISCONNECTED"))}
                else if reason.Some? then old(Facts(Value())) - {At(Key(broker, account), reason.value)}
                else old(Facts(Value())) - {At(Key(broker, account), "HG_WORKER_DISCONNECTED")}
                     - {At(Key(broker, account), "HG_WORKER_NOT_READY")}
    {
      hide Facts, Upper;
      if ready {
        if reason.Some? {
          ClearScope(broker, account, reason.value);
        } else {
          ClearScope(broker, account, "HG_WORKER_DISCONNECTED");
          ClearScope(broker, account, "HG_WORKER_NOT_READY");
        }
      } else {
        BlockScope(broker, account, ReasonOr(reason, "HG_WORKER_DISCONNECTED"));
      }
    }

    method FailDatabase(reason: string)
      modifies this
      ensures Value() == DatabaseFailed(old(Value()), reason)
      ensures Facts(Value()) == old(Facts(Value())) + {Everywhere(reason)}
      ensures !database.Unwatched? ==> DatabaseReason(database) == Some(reason)
    {
      if !database.Unwatched? {
        database := Unhealthy(Some(reason));
      }
      Block(reason);
    }
  }

  lemma GlobalsAre(g: Gate)
    ensures GlobalReasons(Facts(g)) == g.blockers
  {
    forall r ensures r in GlobalReasons(Facts(g)) <==> r in g.blockers {
      assert Everywhere(r) in Facts(g) <==> r in g.blockers;
    }
  }

  lemma ScopeIs(g: Gate, key: (string, string))
    ensures ScopeReasons(Facts(g), key) == BlockersAt(g, key)
  {
    forall r ensures r in ScopeReasons(Facts(g), key) <==> r in BlockersAt(g, key) {
      assert At(key, r) in Facts(g) <==> r in BlockersAt(g, key);
    }
  }

  lemma AllAre(g: Gate)
    ensures AllReasons(Facts(g)) == g.blockers + set k, r | k in g.scoped && r in g.scoped[k] :: r
  {
    var scoped := set k, r | k in g.scoped && r in g.scoped[k] :: r;
    forall r ensures r in AllReasons(Facts(g)) <==> r in g.blockers || r in scoped {
      assert Everywhere(r) in Facts(g) <==> r in g.blockers;
      if r in scoped {
        var k :| k in g.scoped && r in g.scoped[k];
        assert At(k, r) in Facts(g);
      }
    }
  }

  // ---------------------------------------------------------------- who a fact concerns

  /** A fact of one ordinary account concerns that account alone. */
  lemma ScopedFactsStayHome(facts: set<Fact>, scope: (string, string), reason: string, broker: string, account: string)
    requires scope.1 != MARKET_DATA && Key(broker, account) != scope
    ensures Relevant(facts + {At(scope, reason)}, broker, account) == Relevant(facts, broker, account)
    ensures Relevant(facts - {At(scope, reason)}, broker, account) == Relevant(facts, broker, account)
  {
  }

  /** It holds its account, whatever else is known; a market-data fact holds every account of its
      broker, and a global one every account there is. */
  lemma FactsHold(facts: set<Fact>, broker: string, account: string, reason: string)
    ensures At(Key(broker, account), reason) in facts ==> Relevant(facts, broker, account) != {}
    ensures At(Key(broker, MARKET_DATA), reason) in facts ==> Relevant(facts, broker, account) != {}
    ensures Everywhere(reason) in facts ==> Relevant(facts, broker, account) != {}
  {
    hide Upper;
    if At(Key(broker, account), reason) in facts {
      assert reason in ScopeReasons(facts, Key(broker, account));
    }
    if At(Key(broker, MARKET_DATA), reason) in facts {
      assert reason in ScopeReasons(facts, Key(broker, MARKET_DATA));
    }
    if Everywhere(reason) in facts {
      assert reason in GlobalReasons(facts);
    }
  }

  /** And nothing else does: an account is held only by a global fact, one of its own or one of its
      broker's market data. */
  lemma HeldOnlyByFacts(facts: set<Fact>, broker: string, account: string) returns (fact: Fact)
    requires Relevant(facts, broker, account) != {}
    ensures fact in facts
    ensures fact.Everywhere? || fact.scope == Key(broker, account) || fact.scope == Key(broker, MARKET_DATA)
  {
    hide Upper;
    var reason :| reason in Relevant(facts, broker, account);
    if GlobalReasons(facts) != {} {
      fact :| fact in facts && fact.Everywhere? && fact.reason == reason;
    } else if reason in ScopeReasons(facts, Key(broker, account)) {
      fact :| fact in facts && fact.At? && fact.scope == Key(broker, account) && fact.reason == reason;
    } else {
      fact :| fact in facts && fact.At? && fact.scope == Key(broker, MARKET_DATA) && fact.reason == reason;
    }
  }

  /** Two gates that know the same facts answer alike, however their history left the dictionaries
      (clearing a reason everywhere leaves empty entries behind, clearing it at one account does not). */
  lemma SameFactsSameAnswer(g: Gate, h: Gate, broker: string, account: string, s: HealthState, t: HealthState)
    requires Facts(g) == Facts(h) && g.database == h.database
    requires AnswersWith(g.database, Relevant(Facts(g), broker, account), s)
    requires AnswersWith(h.database, Relevant(Facts(h), broker, account), t)
    ensures s == t
  {
    hide Answers, Upper, Facts;
    if DatabaseReason(g.database).None? {
      AnswersAreUnique(Relevant(Facts(g), broker, account), s, t);
    }
  }
}
