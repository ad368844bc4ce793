/** IQOptionConnectionSafetyController and its store
    (apps/core/iqoption_connection_safety.py): persistent admission control for logins. */
module LoginSafety {
  import opened Optional
  import opened SlidingWindow

  const LOGIN_WINDOW := 900.0
  const LOGIN_LIMIT: nat := 3
  const QUARANTINE := 900.0
  const IMMEDIATE_QUARANTINE_REASONS: set<string> :=
    {"IQOPTION_AUTH_FAILED", "IQOPTION_2FA_REQUIRED", "IQOPTION_RATE_LIMITED"}

  datatype Persistent = Persistent(attempts: seq<real>, quarantineUntil: real, lastReason: Option<string>)

  const EMPTY := Persistent([], 0.0, None)

  datatype Decision = Decision(allowed: bool, attemptsInWindow: nat, retryAfterSeconds: nat)

  /** A call answers, returns nothing, or raises (an invalid clock or a failed save). */
  datatype Reply =
    | Raised
    | Done
    | Decided(decision: Decision)
    | Observed(attemptsInWindow: nat, quarantined: bool, retryAfterSeconds: nat, lastReason: Option<string>)

  /** The controller's memory and the file behind it. */
  datatype Cell = Cell(memory: Persistent, disk: Persistent)

  datatype Event =
    | Admit(now: real, saves: bool)
    | Failure(now: real, saves: bool, reason: string)
    | Success(now: real, saves: bool)
    | Snapshot(now: real)
    | Restart

  // ---------------------------------------------------------------- one call

  function Ceiling(x: real): (n: int)
    ensures (n - 1) as real < x <= n as real
  {
    -((-x).Floor)
  }

  function RetryAfter(state: Persistent, now: real): nat {
    var wait := Ceiling(state.quarantineUntil - now);
    if wait > 0 then wait else 0
  }

  function Pruned(state: Persistent, now: real): Persistent {
    state.(attempts := After(state.attempts, now - LOGIN_WINDOW))
  }

  function Decide(allowed: bool, state: Persistent, now: real): Decision {
    Decision(allowed, |state.attempts|, RetryAfter(state, now))
  }

  function Observation(state: Persistent, now: real): Reply {
    Observed(|state.attempts|, RetryAfter(state, now) > 0, RetryAfter(state, now), state.lastReason)
  }

  function Persist(c: Cell, state: Persistent, saves: bool, reply: Reply): (Cell, Reply) {
    if saves then (Cell(state, state), reply) else (c, Raised)
  }

  function Apply(c: Cell, e: Event): (Cell, Reply) {
    if !e.Restart? && e.now < 0.0 then (c, Raised)
    else match e
      case Admit(now, saves) =>
        var state := Pruned(c.memory, now);
        if state.quarantineUntil > now then
          (c.(memory := state), Decided(Decide(false, state, now)))
        else if |state.attempts| >= LOGIN_LIMIT then
          var held := Persistent(state.attempts, now + QUARANTINE, Some("IQOPTION_HTTP_LOGIN_LIMIT_REACHED"));
          Persist(c, held, saves, Decided(Decide(false, held, now)))
        else
          var grown := Persistent(state.attempts + [now], 0.0, state.lastReason);
          Persist(c, grown, saves, Decided(Decide(true, grown, now)))
      case Failure(now, saves, reason) =>
        var state := Pruned(c.memory, now);
        var until := if reason in IMMEDIATE_QUARANTINE_REASONS && state.quarantineUntil < now + QUARANTINE
                     then now + QUARANTINE else state.quarantineUntil;
        Persist(c, Persistent(state.attempts, until, Some(reason)), saves, Done)
      case Success(now, saves) =>
        Persist(c, Persistent(Pruned(c.memory, now).attempts, 0.0, None), saves, Done)
      case Snapshot(now) =>
        var state := Pruned(c.memory, now);
        (c.(memory := state), Observation(state, now))
      case Restart =>
        (c.(memory := c.disk), Done)
  }

  /** The controller as it stands: each call replaces `state`, and the file when it saves. */
  class Controller {
    var state: Persistent
    var disk: Persistent

    function View(): Cell
      reads this
    {
      Cell(state, disk)
    }

    constructor (stored: Persistent)
      ensures View() == Cell(stored, stored)
    {
      state, disk := stored, stored;
    }

    method Save(next: Persistent, saves: bool) returns (raised: bool)
      modifies this
      ensures raised == !saves
      ensures View() == if saves then Cell(next, next) else old(View())
    {
      if !saves {
        return true;
      }
      disk := next;
      state := next;
      return false;
    }

    method AdmitHttpLogin(now: real, saves: bool) returns (r: Reply)
      modifies this
      ensures (View(), r) == Apply(old(View()), Admit(now, saves))
    {
      if now < 0.0 {
        return Raised;
      }
      var next := Pruned(state, now);
      if next.quarantineUntil > now {
        state := next;
        return Decided(Decide(false, next, now));
      }
      if |next.attempts| >= LOGIN_LIMIT {
        next := Persistent(next.attempts, now + QUARANTINE, Some("IQOPTION_HTTP_LOGIN_LIMIT_REACHED"));
        var raised := Save(next, saves);
        return if raised then Raised else Decided(Decide(false, next, now));
      }
      next := Persistent(next.attempts + [now], 0.0, next.lastReason);
      var raised := Save(next, saves);
      return if raised then Raised else Decided(Decide(true, next, now));
    }

    method RecordFailure(now: real, saves: bool, reason: string) returns (r: Reply)
      modifies this
      ensures (View(), r) == Apply(old(View()), Failure(now, saves, reason))
    {
      if now < 0.0 {
        return Raised;
      }
      var next := Pruned(state, now);
      var until := next.quarantineUntil;
      if reason in IMMEDIATE_QUARANTINE_REASONS && until < now + QUARANTINE {
        until := now + QUARANTINE;
      }
      var raised := Save(Persistent(next.attempts, until, Some(reason)), saves);
      return if raised then Raised else Done;
    }

    method RecordSuccess(now: real, saves: bool) returns (r: Reply)
      modifies this
      ensures (View(), r) == Apply(old(View()), Success(now, saves))
    {
      if now < 0.0 {
        return Raised;
      }
      var next := Pruned(state, now);
      var raised := Save(Persistent(next.attempts, 0.0, None), saves);
      return if raised then Raised else Done;
    }

    method TakeSnapshot(now: real) returns (r: Reply)
      modifies this
      ensures (View(), r) == Apply(old(View()), Snapshot(now))
    {
      if now < 0.0 {
        return Raised;
      }
      state := Pruned(state, now);
      var wait := RetryAfter(state, now);
      return Observed(|state.attempts|, wait > 0, wait, state.lastReason);
    }
  }

  // ---------------------------------------------------------------- whole runs

  /** The cell, the last clock reading and every login ever admitted. */
  datatype World = World(cell: Cell, clock: real, admitted: seq<real>)

  const START := World(Cell(EMPTY, EMPTY), 0.0, [])

  function Answer(w: World, e: Event): Reply {
    Apply(w.cell, e).1
  }

  predicate IsAdmitted(r: Reply) {
    r.Decided? && r.decision.allowed
  }

  function Step(w: World, e: Event): World {
    World(
      Apply(w.cell, e).0,
      if e.Restart? then w.clock else e.now,
      if IsAdmitted(Answer(w, e)) then w.admitted + [e.now] else w.admitted)
  }

  function Run(w: World, events: seq<Event>): World {
    if events == [] then w else Step(Run(w, events[..|events| - 1]), events[|events| - 1])
  }

  /** The wall clock never steps back, restarts included. */
  predicate Legal(w: World, events: seq<Event>) {
    events == [] ||
    (var last := events[|events| - 1];
     && Legal(w, events[..|events| - 1])
     && (last.Restart? || last.now >= Run(w, events[..|events| - 1]).clock))
  }

  predicate NotLater(ts: seq<real>, t: real) {
    forall i :: 0 <= i < |ts| ==> ts[i] <= t
  }

  /** `attempts` is `admitted` less some logins that left the window by `clock`. */
  ghost predicate Recent(attempts: seq<real>, admitted: seq<real>, clock: real) {
    && |attempts| <= |admitted|
    && attempts == admitted[|admitted| - |attempts|..]
    && NotLater(admitted[..|admitted| - |attempts|], clock - LOGIN_WINDOW)
  }

  ghost predicate Inv(w: World) {
    && w.clock >= 0.0
    && Ascending(w.admitted)
    && NotLater(w.admitted, w.clock)
    && Spaced(w.admitted, LOGIN_LIMIT, LOGIN_WINDOW)
    && Recent(w.cell.memory.attempts, w.admitted, w.clock)
    && Recent(w.cell.disk.attempts, w.admitted, w.clock)
    && w.cell.memory.quarantineUntil == w.cell.disk.quarantineUntil
    && w.cell.memory.lastReason == w.cell.disk.lastReason
    && (w.cell.memory.quarantineUntil != 0.0 ==> NotLater(w.admitted, w.cell.memory.quarantineUntil - LOGIN_WINDOW))
  }

  lemma RecentPrunes(attempts: seq<real>, admitted: seq<real>, clock: real, now: real)
    requires Ascending(admitted) && Recent(attempts, admitted, clock) && clock <= now
    ensures After(attempts, now - LOGIN_WINDOW) == After(admitted, now - LOGIN_WINDOW)
    ensures Recent(After(attempts, now - LOGIN_WINDOW), admitted, now)
    ensures Recent(attempts, admitted, now)
  {
    var dropped := |admitted| - |attempts|;
    assert forall i :: 0 <= i < dropped ==> admitted[i] == admitted[..dropped][i];
    AfterForgets(admitted, dropped, now - LOGIN_WINDOW);
    var k := AfterIsSuffix(admitted, now - LOGIN_WINDOW);
  }

  lemma RecentGrows(attempts: seq<real>, admitted: seq<real>, clock: real, t: real)
    requires Recent(attempts, admitted, clock)
    ensures Recent(attempts + [t], admitted + [t], clock)
  {
  }

  /** Replacing the memory, or memory and file, without admitting anybody. */
  lemma ReplacementKeepsInv(w: World, now: real, memory: Persistent, disk: Persistent)
    requires Inv(w) && now >= w.clock
    requires memory.attempts == Pruned(w.cell.memory, now).attempts || memory == w.cell.memory
    requires disk == memory || disk == w.cell.disk
    requires memory.quarantineUntil == disk.quarantineUntil && memory.lastReason == disk.lastReason
    requires memory.quarantineUntil in {0.0, now + QUARANTINE, w.cell.memory.quarantineUntil}
    ensures Inv(World(Cell(memory, disk), now, w.admitted))
  {
    RecentPrunes(w.cell.memory.attempts, w.admitted, w.clock, now);
    RecentPrunes(w.cell.disk.attempts, w.admitted, w.clock, now);
    assert NotLater(w.admitted, now);
  }

  lemma AdmissionKeepsInv(w: World, now: real, memory: Persistent)
    requires Inv(w) && now >= w.clock
    requires memory.attempts == Pruned(w.cell.memory, now).attempts + [now]
    requires memory.quarantineUntil == 0.0
    requires |Pruned(w.cell.memory, now).attempts| < LOGIN_LIMIT
    ensures Inv(World(Cell(memory, memory), now, w.admitted + [now]))
  {
    hide After, Spaced, Ascending, Recent;
    RecentPrunes(w.cell.memory.attempts, w.admitted, w.clock, now);
    assert NotLater(w.admitted, now);
    AdmissionKeepsSpacing(w.admitted, LOGIN_LIMIT, LOGIN_WINDOW, now);
    RecentGrows(Pruned(w.cell.memory, now).attempts, w.admitted, now, now);
    assert NotLater(w.admitted + [now], now);
  }

  lemma StepKeepsInv(w: World, e: Event)
    requires Inv(w) && (e.Restart? || e.now >= w.clock)
    ensures Inv(Step(w, e))
  {
    if e.Restart? {
    } else if IsAdmitted(Answer(w, e)) {
      AdmissionKeepsInv(w, e.now, Apply(w.cell, e).0.memory);
    } else {
      var next := Apply(w.cell, e).0;
      ReplacementKeepsInv(w, e.now, next.memory, next.disk);
    }
  }

  lemma {:induction false} RunKeepsInv(events: seq<Event>)
    requires Legal(START, events)
    ensures Inv(Run(START, events))
  {
    if events != [] {
      var earlier := events[..|events| - 1];
      RunKeepsInv(earlier);
      StepKeepsInv(Run(START, earlier), events[|events| - 1]);
    }
  }

  /** Over every interleaving of admissions, failures, successes, snapshots, failed saves and
      restarts, no half-open quarter of an hour holds more than three admitted logins. */
  lemma {:induction false} AtMostThreeLogins(events: seq<Event>, window: Window)
    requires Legal(START, events)
    requires window.high - window.low == LOGIN_WINDOW
    ensures |Inside(Run(START, events).admitted, window)| <= LOGIN_LIMIT
  {
    RunKeepsInv(events);
    SpacedBoundsWindows(Run(START, events).admitted, LOGIN_LIMIT, window);
  }

  /** Pruned now, the file, the memory and the full admission history are the same list. */
  lemma {:induction false} DiskAndMemoryAgree(events: seq<Event>, now: real)
    requires Legal(START, events) && now >= Run(START, events).clock
    ensures var w := Run(START, events);
            && Pruned(w.cell.memory, now) == Pruned(w.cell.disk, now)
            && Pruned(w.cell.memory, now).attempts == After(w.admitted, now - LOGIN_WINDOW)
  {
    RunKeepsInv(events);
    var w := Run(START, events);
    RecentPrunes(w.cell.memory.attempts, w.admitted, w.clock, now);
    RecentPrunes(w.cell.disk.attempts, w.admitted, w.clock, now);
  }

  /** Two worlds that differ at most in attempts that have left the window. */
  ghost predicate Alike(v: World, w: World) {
    && Inv(v) && Inv(w)
    && v.clock == w.clock && v.admitted == w.admitted
    && v.cell.memory.quarantineUntil == w.cell.memory.quarantineUntil
    && v.cell.memory.lastReason == w.cell.memory.lastReason
  }

  lemma AlikePruned(v: World, w: World, now: real)
    requires Alike(v, w) && now >= v.clock
    ensures Pruned(v.cell.memory, now) == Pruned(w.cell.memory, now)
  {
    hide After, Spaced, Ascending, Recent;
    RecentPrunes(v.cell.memory.attempts, v.admitted, v.clock, now);
    RecentPrunes(w.cell.memory.attempts, w.admitted, w.clock, now);
  }

  /** What a call answers, and the quarantine and reason it leaves, depend on the pruned memory alone. */
  lemma PrunedDecides(c: Cell, d: Cell, e: Event)
    requires !e.Restart? && Pruned(c.memory, e.now) == Pruned(d.memory, e.now)
    requires c.memory.quarantineUntil == d.memory.quarantineUntil && c.memory.lastReason == d.memory.lastReason
    ensures var (c', r) := Apply(c, e);
            var (d', q) := Apply(d, e);
            && r == q
            && c'.memory.quarantineUntil == d'.memory.quarantineUntil && c'.memory.lastReason == d'.memory.lastReason
  {
    QuarantinePruned(c.memory, e.now);
    QuarantinePruned(d.memory, e.now);
    hide Pruned, RetryAfter;
  }

  lemma StepKeepsAlike(v: World, w: World, e: Event)
    requires Alike(v, w) && (e.Restart? || e.now >= v.clock)
    ensures Alike(Step(v, e), Step(w, e)) && Answer(v, e) == Answer(w, e)
  {
    StepKeepsInv(v, e);
    StepKeepsInv(w, e);
    if e.Restart? {
      hide After, Spaced, Ascending, Recent, NotLater, Pruned;
    } else {
      AlikePruned(v, w, e.now);
      PrunedDecides(v.cell, w.cell, e);
      hide Apply, Inv, Pruned;
    }
  }

  lemma QuarantinePruned(state: Persistent, now: real)
    ensures Pruned(state, now).quarantineUntil == state.quarantineUntil
    ensures Pruned(state, now).lastReason == state.lastReason
  {
  }

  lemma {:induction false} RunKeepsAlike(v: World, w: World, events: seq<Event>)
    requires Alike(v, w) && Legal(v, events)
    ensures Alike(Run(v, events), Run(w, events)) && Legal(w, events)
  {
    hide Alike, Step;
    if events != [] {
      var earlier, last := events[..|events| - 1], events[|events| - 1];
      RunKeepsAlike(v, w, earlier);
      StepKeepsAlike(Run(v, earlier), Run(w, earlier), last);
      SameClock(Run(v, earlier), Run(w, earlier));
    }
  }

  lemma SameClock(v: World, w: World)
    requires Alike(v, w)
    ensures v.clock == w.clock && v.admitted == w.admitted
  {
  }

  /** A restart at any point of any run changes no later answer: not one, however long the run goes on
      and however many restarts it still sees. */
  lemma {:induction false} RestartIsInvisible(events: seq<Event>, later: seq<Event>, e: Event)
    requires Legal(START, events) && Legal(Run(START, events), later)
    requires e.Restart? || e.now >= Run(Run(START, events), later).clock
    ensures var w := Run(START, events);
            var restarted := Step(w, Restart);
            && Legal(restarted, later)
            && Answer(Run(restarted, later), e) == Answer(Run(w, later), e)
            && Run(restarted, later).admitted == Run(w, later).admitted
  {
    RunKeepsInv(events);
    var w := Run(START, events);
    StepKeepsInv(w, Restart);
    assert Alike(w, Step(w, Restart));
    hide Alike, Run, Step;
    RunKeepsAlike(w, Step(w, Restart), later);
    StepKeepsAlike(Run(w, later), Run(Step(w, Restart), later), e);
    SameClock(Run(w, later), Run(Step(w, Restart), later));
  }

  // ---------------------------------------------------------------- the advertised waiting time

  predicate Refused(r: Reply) {
    r.Decided? && !r.decision.allowed
  }

  /** A refusal leaves an active quarantine alone; it starts one only when there was none. */
  lemma {:induction false} RefusalNeverExtends(events: seq<Event>, e: Event)
    requires Legal(START, events)
    requires e.Admit? && e.now >= Run(START, events).clock
    requires Refused(Answer(Run(START, events), e))
    ensures var w := Run(START, events);
            var before := w.cell.memory.quarantineUntil;
            var after := Step(w, e).cell.memory.quarantineUntil;
            && (before != 0.0 ==> after == before)
            && (before == 0.0 ==> after == e.now + QUARANTINE)
            && e.now < after
  {
    RunKeepsInv(events);
    NothingLiveAfterQuarantine(Run(START, events), e.now);
  }

  /** Once a quarantine has run out, no attempt made before it is still inside the window. */
  lemma NothingLiveAfterQuarantine(w: World, now: real)
    requires Inv(w) && now >= w.clock
    ensures var until := w.cell.memory.quarantineUntil;
            until != 0.0 && until <= now ==> Pruned(w.cell.memory, now).attempts == []
  {
    hide After, Spaced;
    var until := w.cell.memory.quarantineUntil;
    if until != 0.0 && until <= now {
      RecentPrunes(w.cell.memory.attempts, w.admitted, w.clock, now);
      assert NotLater(w.admitted, now - LOGIN_WINDOW);
      AfterDropsAll(w.admitted, now - LOGIN_WINDOW);
    }
  }

  /** Only requests, snapshots and restarts: nothing records a success or a failure. */
  predicate Quiet(events: seq<Event>) {
    forall i :: 0 <= i < |events| ==> !events[i].Failure? && !events[i].Success?
  }

  lemma {:induction false} QuarantineStands(w: World, events: seq<Event>)
    requires Inv(w) && w.cell.memory.quarantineUntil != 0.0
    requires Legal(w, events) && Quiet(events) && Run(w, events).admitted == w.admitted
    ensures Inv(Run(w, events))
    ensures Run(w, events).cell.memory.quarantineUntil == w.cell.memory.quarantineUntil
  {
    hide After, Spaced, Ascending, Recent;
    if events != [] {
      var earlier := events[..|events| - 1];
      var last := events[|events| - 1];
      AdmittedOnlyGrows(w, earlier);
      assert Quiet(earlier);
      QuarantineStands(w, earlier);
      var w' := Run(w, earlier);
      StepKeepsInv(w', last);
      if last.Admit? {
        NothingLiveAfterQuarantine(w', last.now);
      }
    }
  }

  lemma {:induction false} AdmittedOnlyGrows(w: World, events: seq<Event>)
    ensures |w.admitted| <= |Run(w, events).admitted|
    ensures Run(w, events).admitted[..|w.admitted|] == w.admitted
  {
    if events != [] {
      AdmittedOnlyGrows(w, events[..|events| - 1]);
    }
  }

  // Requests admitted between the end of the quarantine and the one that waited.

  /** How a quiet run stands that began with `base` logins under a quarantine until `q`: those are
      all at least a window before `q`, those since are not before it, and the quarantine is over
      once there is one and back, for longer than `q` plus a window, only once there are three. */
  ghost predicate Resumed(w: World, base: nat, q: real) {
    && base <= |w.admitted| <= base + LOGIN_LIMIT
    && NotLater(w.admitted[..base], q - LOGIN_WINDOW)
    && (forall i :: base <= i < |w.admitted| ==> w.admitted[i] >= q)
    && (|w.admitted| == base ==> w.cell.memory.quarantineUntil == q)
    && (base < |w.admitted| ==>
          || w.cell.memory.quarantineUntil == 0.0
          || (|w.admitted| == base + LOGIN_LIMIT && w.cell.memory.quarantineUntil >= q + LOGIN_WINDOW))
  }

  /** Within a window of `q` the live logins are exactly those since. */
  lemma LiveAreTheResumed(w: World, base: nat, q: real, now: real)
    requires Inv(w) && Resumed(w, base, q) && w.clock <= now && q <= now < q + LOGIN_WINDOW
    ensures |Pruned(w.cell.memory, now).attempts| == |w.admitted| - base
  {
    hide Spaced, After, Recent;
    var bound := now - LOGIN_WINDOW;
    RecentPrunes(w.cell.memory.attempts, w.admitted, w.clock, now);
    assert forall i :: 0 <= i < base ==> w.admitted[i] == w.admitted[..base][i];
    AfterForgets(w.admitted, base, bound);
    AfterKeepsAll(w.admitted[base..], bound);
  }

  lemma NotLaterAt(ts: seq<real>, t: real, i: nat)
    requires NotLater(ts, t)
    ensures i < |ts| ==> ts[i] <= t
  {
  }

  /** Before `q` nobody has been admitted yet. */
  lemma NotResumedYet(w: World, base: nat, q: real, now: real)
    requires Inv(w) && Resumed(w, base, q) && w.clock <= now < q
    ensures |w.admitted| == base && w.cell.memory.quarantineUntil == q
  {
    NotLaterAt(w.admitted, w.clock, base);
  }

  lemma ResumedDecides(w: World, base: nat, q: real, t: real)
    requires Inv(w) && Resumed(w, base, q) && w.clock <= t < q + LOGIN_WINDOW && q != 0.0
    ensures IsAdmitted(Answer(w, Admit(t, true))) <==> t >= q && |w.admitted| - base < LOGIN_LIMIT
  {
    hide After, Spaced;
    if t < q {
      NotResumedYet(w, base, q, t);
    } else {
      LiveAreTheResumed(w, base, q, t);
    }
  }

  lemma StepKeepsResumed(w: World, base: nat, q: real, e: Event)
    requires Inv(w) && Resumed(w, base, q) && q != 0.0 && w.clock < q + LOGIN_WINDOW
    requires !e.Failure? && !e.Success? && (e.Restart? || w.clock <= e.now < q + LOGIN_WINDOW)
    ensures Resumed(Step(w, e), base, q)
  {
    hide After, Spaced;
    if e.Admit? {
      if e.now < q {
        NotResumedYet(w, base, q, e.now);
      } else {
        LiveAreTheResumed(w, base, q, e.now);
      }
      assert |w.admitted| < |Step(w, e).admitted| ==> Step(w, e).admitted[..base] == w.admitted[..base];
    }
  }

  lemma {:induction false} RunKeepsResumed(w: World, q: real, events: seq<Event>)
    requires Inv(w) && q == w.cell.memory.quarantineUntil != 0.0
    requires Legal(w, events) && Quiet(events) && w.clock < q + LOGIN_WINDOW && Run(w, events).clock < q + LOGIN_WINDOW
    ensures Inv(Run(w, events)) && Resumed(Run(w, events), |w.admitted|, q)
  {
    if events == [] {
      assert w.admitted[..|w.admitted|] == w.admitted;
    } else {
      var earlier, last := events[..|events| - 1], events[|events| - 1];
      assert Quiet(earlier);
      hide Resumed, Inv;
      RunKeepsResumed(w, q, earlier);
      StepKeepsInv(Run(w, earlier), last);
      StepKeepsResumed(Run(w, earlier), |w.admitted|, q, last);
    }
  }

  /** `retry_after_seconds` after a refusal at `t0`, whatever requests, snapshots, failed saves and
      restarts follow. Until a window past the end of the quarantine a request that saves is
      admitted exactly from that end on and while fewer than three others have been admitted before
      it; so it is always refused a whole second before the advertised time, and from the advertised
      time on only the third earlier admission can stand in its way. If nobody was admitted at all,
      the same holds for ever. */
  lemma {:induction false} RetryAfterIsTruthful(events: seq<Event>, t0: real, saved: bool, later: seq<Event>, t: real)
    requires Legal(START, events) && t0 >= Run(START, events).clock
    requires Refused(Answer(Run(START, events), Admit(t0, saved)))
    requires var w := Step(Run(START, events), Admit(t0, saved));
             Legal(w, later) && Quiet(later) && t >= Run(w, later).clock
    ensures var refusal := Answer(Run(START, events), Admit(t0, saved)).decision;
            var w := Step(Run(START, events), Admit(t0, saved));
            var q := w.cell.memory.quarantineUntil;
            var taken := |Run(w, later).admitted| - |w.admitted|;
            var next := Answer(Run(w, later), Admit(t, true));
            && t0 + (refusal.retryAfterSeconds - 1) as real < q <= t0 + refusal.retryAfterSeconds as real
            && (t < q + LOGIN_WINDOW ==> (IsAdmitted(next) <==> t >= q && taken < LOGIN_LIMIT))
            && (taken == 0 ==> (IsAdmitted(next) <==> t >= q))
  {
    var before := Run(START, events);
    var w := Step(before, Admit(t0, saved));
    var q := w.cell.memory.quarantineUntil;
    RunKeepsInv(events);
    RefusalNeverExtends(events, Admit(t0, saved));
    StepKeepsInv(before, Admit(t0, saved));
    RefusalAdvertisesQuarantine(before, t0, saved);
    hide Inv, Resumed, Answer, Step;
    if t < q + LOGIN_WINDOW {
      RunKeepsResumed(w, q, later);
      ResumedDecides(Run(w, later), |w.admitted|, q, t);
    }
    AdmittedOnlyGrows(w, later);
    if |Run(w, later).admitted| == |w.admitted| {
      assert Run(w, later).admitted[..|w.admitted|] == Run(w, later).admitted;
      QuarantineStands(w, later);
      AdmittedExactlyAfterQuarantine(Run(w, later), t);
    }
  }

  lemma AdmittedExactlyAfterQuarantine(w: World, t: real)
    requires Inv(w) && t >= w.clock && w.cell.memory.quarantineUntil != 0.0
    ensures IsAdmitted(Answer(w, Admit(t, true))) <==> t >= w.cell.memory.quarantineUntil
  {
    NothingLiveAfterQuarantine(w, t);
  }

  lemma RefusalAdvertisesQuarantine(w: World, t0: real, saved: bool)
    requires Refused(Answer(w, Admit(t0, saved)))
    ensures var until := Step(w, Admit(t0, saved)).cell.memory.quarantineUntil;
            var wait := Answer(w, Admit(t0, saved)).decision.retryAfterSeconds;
            t0 + (wait - 1) as real < until <= t0 + wait as real
  {
  }

  /** Three can: the advertised wait is rounded up, and three requests made as the quarantine ends
      take the window of the one that waited longer. */
  lemma ThreeEarlierRequestsTakeTheWindow(w: World, t: real)
    requires Inv(w) && w.cell.memory.quarantineUntil >= w.clock
    requires w.cell.memory.quarantineUntil != 0.0
    requires w.cell.memory.quarantineUntil <= t < w.cell.memory.quarantineUntil + LOGIN_WINDOW
    ensures var request := Admit(w.cell.memory.quarantineUntil, true);
            var w1 := Step(w, request);
            var w2 := Step(w1, request);
            && IsAdmitted(Answer(w, request)) && IsAdmitted(Answer(w1, request)) && IsAdmitted(Answer(w2, request))
            && Refused(Answer(Step(w2, request), Admit(t, true)))
  {
    NothingLiveAfterQuarantine(w, w.cell.memory.quarantineUntil);
    ThreeFillTheWindow(w, w.cell.memory.quarantineUntil, t);
  }

  lemma ThreeFillTheWindow(w: World, end: real, t: real)
    requires 0.0 <= end <= t < end + LOGIN_WINDOW && w.cell.memory.quarantineUntil <= end
    requires Pruned(w.cell.memory, end).attempts == []
    ensures var request := Admit(end, true);
            var w1 := Step(w, request);
            var w2 := Step(w1, request);
            && IsAdmitted(Answer(w, request)) && IsAdmitted(Answer(w1, request)) && IsAdmitted(Answer(w2, request))
            && Refused(Answer(Step(w2, request), Admit(t, true)))
  {
    hide After, Step, Answer;
    var w1 := FreshAdmission(w, end, []);
    assert w1.cell.memory.attempts == [end];
    AfterKeepsAll([end], end - LOGIN_WINDOW);
    var w2 := FreshAdmission(w1, end, [end]);
    assert w2.cell.memory.attempts == [end, end];
    AfterKeepsAll([end, end], end - LOGIN_WINDOW);
    var w3 := FreshAdmission(w2, end, [end, end]);
    FullWindowRefuses(w3, t);
  }

  lemma FreshAdmission(w: World, now: real, live: seq<real>) returns (w': World)
    requires 0.0 <= now && w.cell.memory.quarantineUntil <= now
    requires Pruned(w.cell.memory, now).attempts == live && |live| < LOGIN_LIMIT
    ensures w' == Step(w, Admit(now, true)) && IsAdmitted(Answer(w, Admit(now, true)))
    ensures w'.cell.memory.attempts == live + [now] && w'.cell.memory.quarantineUntil == 0.0
  {
    w' := Step(w, Admit(now, true));
  }

  lemma FullWindowRefuses(w: World, t: real)
    requires 0.0 <= t && w.cell.memory.quarantineUntil <= t
    requires |w.cell.memory.attempts| >= LOGIN_LIMIT
    requires forall i :: 0 <= i < |w.cell.memory.attempts| ==> w.cell.memory.attempts[i] > t - LOGIN_WINDOW
    ensures Refused(Answer(w, Admit(t, true)))
  {
    AfterKeepsAll(w.cell.memory.attempts, t - LOGIN_WINDOW);
  }
}
