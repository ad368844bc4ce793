/** The auto-trader's cached set of in-flight orders against the database
    (apps/core/deriv_auto_trader.py), in every interleaving of the trader thread with broker-event
    callbacks. Each locked block and each database access is one step. The cached set is an object
    that callbacks mutate while the trader may still hold a reference to it, so it lives on a heap. */
module TraderInflight {
  import opened Optional

  type OrderId = nat

  datatype Status = Open | Terminal

  /** What `notify_order_event` is told: a conflict or no state, or the order's state after the commit. */
  datatype Seen = Conflict | SeenOpen | SeenTerminal

  datatype Callback = Callback(order: OrderId, seen: Seen)

  /** Where the trader is in `evaluate_once`. */
  datatype Pc =
    | Idle
    | Checking(inflight: Option<nat>)                               // holds the reference it read
    | Deciding                                                      // found nothing in flight
    | Submitted(order: OrderId)                                     // submit() has written the order
    | Reloading(order: OrderId)                                     // about to query the database
    | Installing(order: OrderId, snapshot: Option<set<OrderId>>)    // holds the query result
    | Confirming(order: OrderId)
    | Readding(order: OrderId)

  datatype State = State(
    db: map<OrderId, Status>,
    heap: seq<set<OrderId>>,
    field: Option<nat>,              // _inflight_order_ids
    callbacks: multiset<Callback>,   // committed, not yet delivered
    pc: Pc,
    foreign: Option<set<OrderId>>,   // snapshot of a reload running on another thread
    reserved: set<OrderId>,          // the account's orders whose risk reservation is active
    indexed: bool)                   // the database allows one active reservation per account

  datatype Step =
    | ReadField
    | CheckInflight
    | Skip
    | Submit(order: OrderId)
    | RaiseAfterPersist
    | AddSubmitted
    | QueryDatabase(answers: bool)
    | Install
    | ConfirmTerminal(answers: bool)
    | AddAgain
    | Commit(order: OrderId, status: Status, notice: Option<Seen>, releases: bool)
    | Deliver(callback: Callback)
    | ForeignQuery
    | ForeignInstall

  function OpenOrders(db: map<OrderId, Status>): set<OrderId> {
    set o | o in db && db[o] == Open
  }

  function Put(s: State, order: OrderId): State
    requires s.field.Some? ==> s.field.value < |s.heap|
  {
    if s.field.None? then s
    else s.(heap := s.heap[s.field.value := s.heap[s.field.value] + {order}])
  }

  function Replace(s: State, snapshot: Option<set<OrderId>>): State {
    if snapshot.None? then s.(field := None)
    else s.(heap := s.heap + [snapshot.value], field := Some(|s.heap|))
  }

  /** notify_order_event, under the cache lock. */
  function Notify(s: State, c: Callback): State
    requires s.field.Some? ==> s.field.value < |s.heap|
  {
    if c.seen == Conflict then s.(field := None)
    else if s.field.None? then s
    else if c.seen == SeenTerminal then
      s.(heap := s.heap[s.field.value := s.heap[s.field.value] - {c.order}])
    else Put(s, c.order)
  }

  /** The order and its reservation are one transaction, which a second active reservation refuses. */
  function Written(s: State, order: OrderId): State {
    if s.indexed && s.reserved != {} then s.(pc := Idle)     // AccountBusyError
    else s.(db := s.db[order := Open], reserved := s.reserved + {order}, pc := Submitted(order))
  }

  predicate WellFormed(s: State) {
    && (s.field.Some? ==> s.field.value < |s.heap|)
    && (s.pc.Checking? && s.pc.inflight.Some? ==> s.pc.inflight.value < |s.heap|)
  }

  /** The database's own rules: terminal is absorbing, a reservation is released only with a terminal
      state, and a callback reports the committed state. */
  predicate CommitAllowed(s: State, order: OrderId, status: Status, notice: Option<Seen>, releases: bool) {
    && order in s.db
    && (releases ==> status == Terminal)
    && (s.db[order] == Terminal ==> status == Terminal)
    && (notice == Some(SeenTerminal) ==> status == Terminal)
    && (notice == Some(SeenOpen) ==> status == Open)
  }

  /** A step that is not possible in `s` leaves it alone. */
  function Next(s: State, step: Step): (next: State)
    requires WellFormed(s)
    ensures WellFormed(next)
  {
    match step
    case ReadField => if s.pc.Idle? then s.(pc := Checking(s.field)) else s
    case CheckInflight =>
      if !s.pc.Checking? then s
      else if s.pc.inflight.None? || s.heap[s.pc.inflight.value] != {} then s.(pc := Idle)
      else s.(pc := Deciding)
    case Skip => if s.pc.Deciding? then s.(pc := Idle) else s
    case Submit(order) =>
      if s.pc.Deciding? && order !in s.db then Written(s, order) else s
    case RaiseAfterPersist => if s.pc.Submitted? then s.(pc := Idle) else s
    case AddSubmitted => if s.pc.Submitted? then Put(s, s.pc.order).(pc := Reloading(s.pc.order)) else s
    case QueryDatabase(answers) =>
      if s.pc.Reloading?
      then s.(pc := Installing(s.pc.order, if answers then Some(OpenOrders(s.db)) else None)) else s
    case Install => if s.pc.Installing? then Replace(s, s.pc.snapshot).(pc := Confirming(s.pc.order)) else s
    case ConfirmTerminal(answers) =>
      if !s.pc.Confirming? then s
      else if answers && s.pc.order in s.db && s.db[s.pc.order] == Terminal then s.(pc := Idle)
      else s.(pc := Readding(s.pc.order))
    case AddAgain => if s.pc.Readding? then Put(s, s.pc.order).(pc := Idle) else s
    case Commit(order, status, notice, releases) =>
      if !CommitAllowed(s, order, status, notice, releases) then s
      else s.(db := s.db[order := status],
              reserved := if releases then s.reserved - {order} else s.reserved,
              callbacks := s.callbacks + if notice.Some? then multiset{Callback(order, notice.value)} else multiset{})
    case Deliver(c) =>
      if c in s.callbacks then Notify(s, c).(callbacks := s.callbacks - multiset{c}) else s
    case ForeignQuery => s.(foreign := Some(OpenOrders(s.db)))
    case ForeignInstall => if s.foreign.Some? then Replace(s, s.foreign).(foreign := None) else s
  }

  /** The database a trader finds. */
  datatype Stored = Stored(db: map<OrderId, Status>, reserved: set<OrderId>, indexed: bool)

  /** The constructor's own reload either answered or failed. */
  function Initial(d: Stored, loaded: bool): (s: State)
    ensures WellFormed(s)
  {
    if loaded then State(d.db, [OpenOrders(d.db)], Some(0), multiset{}, Idle, None, d.reserved, d.indexed)
    else State(d.db, [], None, multiset{}, Idle, None, d.reserved, d.indexed)
  }

  function Run(s: State, steps: seq<Step>): (r: State)
    requires WellFormed(s)
    ensures WellFormed(r)
  {
    if steps == [] then s else Next(Run(s, steps[..|steps| - 1]), steps[|steps| - 1])
  }

  // ---------------------------------------------------------------- what must never happen

  predicate Covers(cache: set<OrderId>, db: map<OrderId, Status>) {
    OpenOrders(db) <= cache
  }

  /** Whenever the trader is about to evaluate, the cache is None or holds every open order; and the
      trader goes on to submit only when no order is open. */
  predicate Safe(s: State)
    requires WellFormed(s)
  {
    && (s.pc.Idle? && s.field.Some? ==> Covers(s.heap[s.field.value], s.db))
    && (s.pc.Deciding? ==> OpenOrders(s.db) == {})
  }

  // ---------------------------------------------------------------- the invariant

  /** Between writing an order and installing the reload, the cache may miss that one order. */
  predicate MayLag(pc: Pc) {
    pc.Submitted? || pc.Reloading? || pc.Installing?
  }

  ghost predicate Inv(db0: map<OrderId, Status>, s: State) {
    && WellFormed(s)
    && (forall c :: c in s.callbacks && c.seen == SeenTerminal ==> c.order in s.db && s.db[c.order] == Terminal)
    && (s.field.Some? && !MayLag(s.pc) ==> Covers(s.heap[s.field.value], s.db))
    && (s.pc.Checking? && s.pc.inflight.Some? ==> Covers(s.heap[s.pc.inflight.value], s.db))
    && (s.pc.Deciding? ==> OpenOrders(s.db) == {})
    && (MayLag(s.pc) ==> OpenOrders(s.db) <= {s.pc.order})
    && (s.pc.Installing? && s.pc.snapshot.Some? ==> Covers(s.pc.snapshot.value, s.db))
    && (OpenOrders(s.db) <= OpenOrders(db0) || exists o :: OpenOrders(s.db) <= {o})
  }

  predicate Disturbing(step: Step) {
    step.RaiseAfterPersist? || step.ForeignQuery? || step.ForeignInstall?
  }

  lemma SubmitKeepsInv(db0: map<OrderId, Status>, s: State, order: OrderId)
    requires Inv(db0, s)
    ensures Inv(db0, Next(s, Submit(order)))
  {
  }

  lemma CommitKeepsInv(db0: map<OrderId, Status>, s: State, step: Step)
    requires Inv(db0, s) && step.Commit?
    ensures Inv(db0, Next(s, step))
  {
  }

  /** A callback replaces the cache by None, or takes out an order that is not open, or adds one. */
  lemma NotifyKeepsCover(s: State, c: Callback)
    requires WellFormed(s) && (c.seen == SeenTerminal ==> c.order !in OpenOrders(s.db))
    ensures var t := Notify(s, c);
            && t == s.(field := t.field, heap := t.heap)
            && |t.heap| == |s.heap| && (t.field.Some? ==> t.field == s.field)
            && forall i :: 0 <= i < |s.heap| && Covers(s.heap[i], s.db) ==> Covers(t.heap[i], s.db)
  {
    hide OpenOrders;
  }

  lemma DeliverKeepsInv(db0: map<OrderId, Status>, s: State, c: Callback)
    requires Inv(db0, s)
    ensures Inv(db0, Next(s, Deliver(c)))
  {
    if c in s.callbacks {
      assert c.seen == SeenTerminal ==> c.order !in OpenOrders(s.db);
      NotifyKeepsCover(s, c);
      hide OpenOrders, Covers, Notify;
    }
  }

  lemma NextKeepsInv(db0: map<OrderId, Status>, s: State, step: Step)
    requires Inv(db0, s) && !Disturbing(step)
    ensures Inv(db0, Next(s, step))
  {
    match step
    case Submit(order) => SubmitKeepsInv(db0, s, order);
    case Commit(_, _, _, _) => CommitKeepsInv(db0, s, step);
    case Deliver(c) => DeliverKeepsInv(db0, s, c);
    case _ => OtherStepKeepsInv(db0, s, step);
  }

  lemma OtherStepKeepsInv(db0: map<OrderId, Status>, s: State, step: Step)
    requires Inv(db0, s) && !Disturbing(step) && !step.Submit? && !step.Commit? && !step.Deliver?
    ensures Inv(db0, Next(s, step))
  {
    assert Next(s, step).db == s.db && Next(s, step).callbacks == s.callbacks;
  }

  lemma {:induction false} RunKeepsInv(d: Stored, loaded: bool, steps: seq<Step>)
    requires forall i :: 0 <= i < |steps| ==> !Disturbing(steps[i])
    ensures Inv(d.db, Run(Initial(d, loaded), steps))
  {
    if steps != [] {
      RunKeepsInv(d, loaded, steps[..|steps| - 1]);
      NextKeepsInv(d.db, Run(Initial(d, loaded), steps[..|steps| - 1]), steps[|steps| - 1]);
    }
  }

  lemma SingletonBound(s: set<OrderId>, o: OrderId)
    requires s <= {o}
    ensures |s| <= 1
  {
    assert s == {} || s == {o};
  }

  /** No interleaving of evaluations, commits, callbacks in any order and failing queries breaks it,
      as long as submissions do not raise after writing and no other thread reloads; and then the
      cache alone, with or without the database's index, sees to it that once the orders open at
      start are gone there is never more than one. */
  lemma {:induction false} CacheCoversOpenOrders(d: Stored, loaded: bool, steps: seq<Step>)
    requires forall i :: 0 <= i < |steps| ==> !Disturbing(steps[i])
    ensures var s := Run(Initial(d, loaded), steps);
            && Safe(s)
            && (OpenOrders(s.db) <= OpenOrders(d.db) || |OpenOrders(s.db)| <= 1)
  {
    RunKeepsInv(d, loaded, steps);
    var s := Run(Initial(d, loaded), steps);
    if !(OpenOrders(s.db) <= OpenOrders(d.db)) {
      var o :| OpenOrders(s.db) <= {o};
      SingletonBound(OpenOrders(s.db), o);
    }
  }

  // ---------------------------------------------------------------- what the index secures

  /** At most one reservation is active, and an open order without one was open at start. */
  ghost predicate Reserved(d: Stored, s: State) {
    && s.indexed
    && |s.reserved| <= 1
    && OpenOrders(s.db) <= s.reserved + (OpenOrders(d.db) - d.reserved)
  }

  /** The same database, whatever became of cache, callbacks and trader. */
  predicate SameDatabase(s: State, t: State) {
    t.db == s.db && t.reserved == s.reserved && t.indexed == s.indexed
  }

  lemma CacheChangesOnlyTheCache(s: State, order: OrderId, snapshot: Option<set<OrderId>>, c: Callback)
    requires WellFormed(s)
    ensures SameDatabase(s, Put(s, order)) && SameDatabase(s, Replace(s, snapshot)) && SameDatabase(s, Notify(s, c))
  {
  }

  /** Only submissions and commits write the database. */
  lemma OthersOnlyRead(s: State, step: Step)
    requires WellFormed(s) && !step.Submit? && !step.Commit?
    ensures SameDatabase(s, Next(s, step))
  {
    var order := if s.pc.Submitted? || s.pc.Readding? then s.pc.order else 0;
    var callback := if step.Deliver? then step.callback else Callback(0, Conflict);
    CacheChangesOnlyTheCache(s, order, if s.pc.Installing? then s.pc.snapshot else s.foreign, callback);
    CacheChangesOnlyTheCache(s, order, s.foreign, callback);
    hide OpenOrders, Written, CommitAllowed, Put, Replace, Notify;
  }

  lemma CommitOpensNothing(s: State, step: Step)
    requires WellFormed(s) && step.Commit?
    ensures var t := Next(s, step);
            && OpenOrders(t.db) <= OpenOrders(s.db) && t.indexed == s.indexed
            && (t.reserved == s.reserved || t.reserved == s.reserved - {step.order})
            && forall o :: o in s.reserved && o in OpenOrders(t.db) ==> o in t.reserved
  {
  }

  lemma ReleaseFreesOne(reserved: set<OrderId>, order: OrderId)
    ensures |reserved - {order}| == |reserved| - if order in reserved then 1 else 0
  {
    assert order !in reserved ==> reserved - {order} == reserved;
  }

  lemma NextKeepsReserved(d: Stored, s: State, step: Step)
    requires WellFormed(s) && Reserved(d, s)
    ensures Reserved(d, Next(s, step))
  {
    hide Next;
    var t := Next(s, step);
    if step.Submit? {
      SubmitKeepsReserved(d, s, step);
    } else if step.Commit? {
      CommitOpensNothing(s, step);
      ReleaseFreesOne(s.reserved, step.order);
    } else {
      OthersOnlyRead(s, step);
    }
  }

  lemma SubmitKeepsReserved(d: Stored, s: State, step: Step)
    requires WellFormed(s) && Reserved(d, s) && step.Submit?
    ensures Reserved(d, Next(s, step))
  {
    hide Reserved, Written;
    WritingKeepsReserved(d, s, step.order);
  }

  lemma WritingKeepsReserved(d: Stored, s: State, order: OrderId)
    requires Reserved(d, s)
    ensures Reserved(d, Written(s, order))
  {
  }

  /** Whatever happens, disturbances included: with the index the account never has more than one
      active reservation, so never more than one open order; every other open order is one that was
      open at start without a reservation of this account. */
  lemma {:induction false} IndexKeepsOneOrder(d: Stored, loaded: bool, steps: seq<Step>)
    requires d.indexed && |d.reserved| <= 1
    ensures var s := Run(Initial(d, loaded), steps);
            && |s.reserved| <= 1
            && OpenOrders(s.db) <= s.reserved + (OpenOrders(d.db) - d.reserved)
  {
    RunKeepsReserved(d, loaded, steps);
  }

  lemma {:induction false} RunKeepsReserved(d: Stored, loaded: bool, steps: seq<Step>)
    requires d.indexed && |d.reserved| <= 1
    ensures Reserved(d, Run(Initial(d, loaded), steps))
  {
    if steps != [] {
      RunKeepsReserved(d, loaded, steps[..|steps| - 1]);
      NextKeepsReserved(d, Run(Initial(d, loaded), steps[..|steps| - 1]), steps[|steps| - 1]);
    }
  }

  // ---------------------------------------------------------------- exactly when it holds

  /** Which of the two outside circumstances may occur. */
  datatype Policy = Policy(submitMayRaiseAfterPersist: bool, othersMayReload: bool) {
    predicate Permits(step: Step) {
      && (step.RaiseAfterPersist? ==> submitMayRaiseAfterPersist)
      && (step.ForeignQuery? || step.ForeignInstall? ==> othersMayReload)
    }

    predicate PermitsAll(steps: seq<Step>) {
      forall i :: 0 <= i < |steps| ==> Permits(steps[i])
    }
  }

  /** Over every database with the index. */
  ghost predicate AlwaysSafe(p: Policy) {
    forall d: Stored, loaded, steps :: d.indexed && p.PermitsAll(steps) ==> Safe(Run(Initial(d, loaded), steps))
  }

  /** The trader is about to evaluate with a cache that misses the one open order. */
  predicate Uncovered(s: State)
    requires WellFormed(s)
  {
    s.pc.Idle? && s.field.Some? && OpenOrders(s.db) == {0} && s.reserved == {0} && !Covers(s.heap[s.field.value], s.db)
  }

  /** An empty database with an empty cache. */
  const FRESH := State(map[], [{}], Some(0), multiset{}, Idle, None, {}, true)

  lemma NoStepsYet()
    ensures Run(FRESH, []) == FRESH
  {
  }

  lemma {:induction false} Goes(p: Policy, steps: seq<Step>, step: Step) returns (longer: seq<Step>)
    requires p.PermitsAll(steps) && p.Permits(step)
    ensures p.PermitsAll(longer) && Run(FRESH, longer) == Next(Run(FRESH, steps), step)
  {
    longer := steps + [step];
    assert longer[..|longer| - 1] == steps;
  }

  /** An evaluation that finds the cache empty can write any unused order id. */
  lemma {:induction false} Submits(p: Policy, steps: seq<Step>, order: OrderId) returns (longer: seq<Step>)
    requires p.PermitsAll(steps)
    requires var s := Run(FRESH, steps);
             s.pc.Idle? && s.field.Some? && s.heap[s.field.value] == {} && order !in s.db && s.reserved == {}
    ensures p.PermitsAll(longer)
    ensures var s := Run(FRESH, steps);
            Run(FRESH, longer) == s.(db := s.db[order := Open], reserved := {order}, pc := Submitted(order))
  {
    hide Run;
    longer := Goes(p, steps, ReadField);
    longer := Goes(p, longer, CheckInflight);
    longer := Goes(p, longer, Submit(order));
  }

  /** The rest of a submission whose order stays open. */
  lemma {:induction false} Settles(p: Policy, steps: seq<Step>) returns (longer: seq<Step>)
    requires p.PermitsAll(steps)
    requires var s := Run(FRESH, steps);
             s.pc.Submitted? && s.pc.order in s.db && s.db[s.pc.order] == Open
    ensures p.PermitsAll(longer)
    ensures var s, next := Run(FRESH, steps), Run(FRESH, longer);
            next.pc.Idle? && next.db == s.db && next.foreign == s.foreign && next.reserved == s.reserved
  {
    hide Run;
    longer := Goes(p, steps, AddSubmitted);
    longer := Reloads(p, longer);
    longer := Confirms(p, longer);
  }

  lemma {:induction false} Confirms(p: Policy, steps: seq<Step>) returns (longer: seq<Step>)
    requires p.PermitsAll(steps)
    requires var s := Run(FRESH, steps);
             s.pc.Confirming? && s.pc.order in s.db && s.db[s.pc.order] == Open
    ensures p.PermitsAll(longer)
    ensures var s, next := Run(FRESH, steps), Run(FRESH, longer);
            next.pc.Idle? && next.db == s.db && next.foreign == s.foreign && next.reserved == s.reserved
  {
    hide Run;
    longer := Goes(p, steps, ConfirmTerminal(true));
    longer := Goes(p, longer, AddAgain);
  }

  lemma {:induction false} Reloads(p: Policy, steps: seq<Step>) returns (longer: seq<Step>)
    requires p.PermitsAll(steps)
    requires Run(FRESH, steps).pc.Reloading?
    ensures p.PermitsAll(longer)
    ensures var s, next := Run(FRESH, steps), Run(FRESH, longer);
            && next.pc == Confirming(s.pc.order)
            && next.db == s.db && next.foreign == s.foreign && next.reserved == s.reserved
  {
    hide Run;
    longer := Goes(p, steps, QueryDatabase(true));
    longer := Goes(p, longer, Install);
  }

  /** `submit` writes the order and then raises: the order is open and the cache stays empty. */
  lemma {:induction false} RaisingSubmitBreaksIt(p: Policy) returns (steps: seq<Step>)
    requires p.submitMayRaiseAfterPersist
    ensures p.PermitsAll(steps) && Uncovered(Run(FRESH, steps))
  {
    hide Run;
    NoStepsYet();
    steps := Submits(p, [], 0);
    steps := Goes(p, steps, RaiseAfterPersist);
    assert 0 in OpenOrders(Run(FRESH, steps).db);
  }

  /** A reload on another thread queries before the order is written and installs after the trader
      has finished with it: the cache is empty again. */
  lemma {:induction false} ForeignReloadBreaksIt(p: Policy) returns (steps: seq<Step>)
    requires p.othersMayReload
    ensures p.PermitsAll(steps) && Uncovered(Run(FRESH, steps))
  {
    hide Run;
    NoStepsYet();
    steps := Goes(p, [], ForeignQuery);
    assert OpenOrders(map[]) == {};
    steps := Submits(p, steps, 0);
    steps := Settles(p, steps);
    steps := Goes(p, steps, ForeignInstall);
    assert 0 in OpenOrders(Run(FRESH, steps).db);
  }

  /** The cache is good for every evaluation of every run exactly when neither circumstance can occur. */
  lemma {:induction false} ExactlyWhenSafe(p: Policy)
    ensures AlwaysSafe(p) <==> !p.submitMayRaiseAfterPersist && !p.othersMayReload
  {
    if !p.submitMayRaiseAfterPersist && !p.othersMayReload {
      forall d: Stored, loaded, steps | d.indexed && p.PermitsAll(steps)
        ensures Safe(Run(Initial(d, loaded), steps))
      {
        CacheCoversOpenOrders(d, loaded, steps);
      }
    } else {
      var steps: seq<Step>;
      if p.submitMayRaiseAfterPersist {
        steps := RaisingSubmitBreaksIt(p);
      } else {
        steps := ForeignReloadBreaksIt(p);
      }
      var d := Stored(map[], {}, true);
      assert OpenOrders(map[]) == {};
      assert Initial(d, true) == FRESH;
      assert !Safe(Run(Initial(d, true), steps));
    }
  }

  // ---------------------------------------------------------------- what enters and leaves the cache

  predicate Cached(s: State, order: OrderId)
    requires WellFormed(s)
  {
    s.field.Some? && order in s.heap[s.field.value]
  }

  /** An order enters a known cache when the trader adds what it submitted, at once and again after a reload
      that did not confirm its end, or by a notice that it is open; it leaves by a notice of its end. All else
      that moves it is a reload or a conflict. */
  lemma CacheMoves(s: State, step: Step, order: OrderId)
    requires WellFormed(s) && s.field.Some? && Next(s, step).field == s.field
    ensures Cached(Next(s, step), order) <==>
            || (step.AddSubmitted? && s.pc == Submitted(order))
            || (step.AddAgain? && s.pc == Readding(order))
            || (step == Deliver(Callback(order, SeenOpen)) && step.callback in s.callbacks)
            || (Cached(s, order) && !(step == Deliver(Callback(order, SeenTerminal)) && step.callback in s.callbacks))
  {
    hide OpenOrders, CommitAllowed;
    if !step.Deliver? && !step.AddSubmitted? && !step.AddAgain? {
      OthersLeaveTheCache(s, step);
      hide Next;
    }
  }

  lemma OthersLeaveTheCache(s: State, step: Step)
    requires WellFormed(s) && s.field.Some? && Next(s, step).field == s.field
    requires !step.Deliver? && !step.AddSubmitted? && !step.AddAgain?
    ensures s.field.value < |Next(s, step).heap| && Next(s, step).heap[s.field.value] == s.heap[s.field.value]
  {
    hide OpenOrders, CommitAllowed;
  }

  /** The cache is replaced only by a conflict or a reload, which brings what the database had when asked. */
  lemma CacheIsReplaced(s: State, step: Step)
    requires WellFormed(s) && Next(s, step).field != s.field
    ensures || (step.Deliver? && step.callback.seen == Conflict && step.callback in s.callbacks)
            || (step.Install? && s.pc.Installing?) || Answers(s, step)
    ensures var next := Next(s, step);
            next.field.Some? <==> Answers(s, step)
    ensures var next := Next(s, step);
            next.field.Some? ==>
              Some(next.heap[next.field.value]) == if step.Install? then s.pc.snapshot else s.foreign
  {
  }

  // ---------------------------------------------------------------- after a conflict

  /** A reload that answered puts a set into the cache. */
  predicate Answers(s: State, step: Step) {
    || (step.Install? && s.pc.Installing? && s.pc.snapshot.Some?)
    || (step.ForeignInstall? && s.foreign.Some?)
  }

  predicate Unanswered(s: State, steps: seq<Step>)
    requires WellFormed(s)
  {
    steps == [] ||
    (Unanswered(s, steps[..|steps| - 1]) && !Answers(Run(s, steps[..|steps| - 1]), steps[|steps| - 1]))
  }

  /** The trader has found nothing in flight, or is about to in the set it holds. */
  predicate PastTheCheck(s: State)
    requires WellFormed(s)
  {
    s.pc.Deciding? || (s.pc.Checking? && s.pc.inflight.Some? && s.heap[s.pc.inflight.value] == {})
  }

  /** With no set in the cache and no reload that answers, nobody can get past the check any more, and
      only somebody already past it can write an order. */
  lemma NextWithoutCache(s: State, step: Step)
    requires WellFormed(s) && s.field.None? && !Answers(s, step)
    ensures var next := Next(s, step);
            && next.field.None? && next.heap == s.heap
            && (PastTheCheck(next) ==> PastTheCheck(s))
            && s.db.Keys <= next.db.Keys
            && (next.db.Keys != s.db.Keys ==>
                  PastTheCheck(s) && !PastTheCheck(next) && exists o :: next.db.Keys == s.db.Keys + {o})
  {
    hide OpenOrders, CommitAllowed;
    if step.Submit? {
      if Next(s, step).db.Keys != s.db.Keys {
        assert Next(s, step).db.Keys == s.db.Keys + {step.order};
      }
    } else if step.Commit? {
      CommitKeepsKeys(s, step);
      hide Next;
    } else {
      OthersOnlyRead(s, step);
    }
  }

  lemma CommitKeepsKeys(s: State, step: Step)
    requires WellFormed(s) && step.Commit?
    ensures var next := Next(s, step);
            next.db.Keys == s.db.Keys && next.pc == s.pc && next.heap == s.heap && next.field == s.field
  {
    if CommitAllowed(s, step.order, step.status, step.notice, step.releases) {
      assert s.db[step.order := step.status].Keys == s.db.Keys;
    }
  }

  /** After a conflict notice, until a reload answers: no order is written, whatever else happens, unless
      the trader had passed its check before the notice came, and then one at most. */
  lemma {:induction false} NoOrderAfterConflict(s: State, order: OrderId, steps: seq<Step>)
    requires WellFormed(s) && Callback(order, Conflict) in s.callbacks
    requires Unanswered(Next(s, Deliver(Callback(order, Conflict))), steps)
    ensures var noticed := Next(s, Deliver(Callback(order, Conflict)));
            var later := Run(noticed, steps);
            && later.field.None? && later.heap == s.heap
            && (!PastTheCheck(s) ==> later.db.Keys == s.db.Keys && !PastTheCheck(later))
            && (later.db.Keys == s.db.Keys || (!PastTheCheck(later) && exists o :: later.db.Keys == s.db.Keys + {o}))
  {
    var noticed := Next(s, Deliver(Callback(order, Conflict)));
    assert noticed.heap == s.heap && noticed.db == s.db && noticed.pc == s.pc;
    if steps != [] {
      NoOrderAfterConflict(s, order, steps[..|steps| - 1]);
      NextWithoutCache(Run(noticed, steps[..|steps| - 1]), steps[|steps| - 1]);
      hide Next;
    }
  }
}
