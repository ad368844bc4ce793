/** Submitting and dispatching orders behind the health gate (apps/core/coordinator.py). The writer,
    the worker, the risk ledger and the authorizer are the environment: what each of them does
    during a call is a parameter of the call. */
module Coordinator {
  import opened Optional
  import H = HealthGate

  const ORDER_UNKNOWN := "HG_ORDER_UNKNOWN"
  const WORKER_NOT_READY := "HG_WORKER_NOT_READY"
  const WRITE_FAILED := "DB_WRITE_FAILED"

  datatype Command = Command(broker: string, account: string, expired: bool)

  datatype Outcome = Accepted | Rejected | TimeoutAfterPossibleSend

  /** What submitting to the worker comes to: a result, an error that is certain nothing was sent, an
      error that is not, or any other exception. */
  datatype WorkerReply = Result(outcome: Outcome) | NotSent | PossiblySent | Crashed

  /** A transaction commits, is refused by a constraint or the writer itself, or fails and marks the
      database. */
  datatype Write = Committed | Refused | Broken

  datatype Delivery = Delivery(claiming: Write, claim: Option<Command>, worker: WorkerReply, recording: Write)

  datatype Reply =
    | BadScope | GateClosed | NotAuthorized | NotReserved | NotPersisted | Raised
    | Nothing | Handled(command: Command) | Placed

  /** What is done outside the gate: an order stored with its reservation and message, a command handed to
      the worker (`Sent`), and the three kinds of record the writer makes of a claimed command. */
  datatype Effect =
    | Stored(broker: string, account: string)
    | Sent(command: Command)
    | Cancelled(command: Command)
    | RecordedNotSent(command: Command)
    | RecordedResult(command: Command, outcome: Outcome)

  // ---------------------------------------------------------------- dispatching

  function OutcomeOf(worker: WorkerReply): Outcome {
    if worker.Result? then worker.outcome else TimeoutAfterPossibleSend
  }

  /** A broken transaction is seen by a gate that watches the database. */
  function AfterWrite(g: H.Gate, write: Write): H.Gate {
    if write == Broken && !g.database.Unwatched? then g.(database := H.Unhealthy(Some(WRITE_FAILED))) else g
  }

  function Dispatch(g: H.Gate, d: Delivery): (H.Gate, Reply) {
    if d.claiming != Committed then (AfterWrite(g, d.claiming), Raised)
    else if d.claim.None? then (g, Nothing)
    else
      var c := d.claim.value;
      if d.recording != Committed then (AfterWrite(g, d.recording), Raised)
      else if c.expired then (g, Handled(c))
      else if d.worker.NotSent? then (H.BlockedAt(g, c.broker, c.account, WORKER_NOT_READY), Handled(c))
      else if OutcomeOf(d.worker) == TimeoutAfterPossibleSend
      then (H.BlockedAt(g, c.broker, c.account, ORDER_UNKNOWN), Handled(c))
      else (g, Handled(c))
  }

  function DispatchEffects(d: Delivery): seq<Effect> {
    if d.claiming != Committed || d.claim.None? then []
    else
      var c := d.claim.value;
      var record := if c.expired then Cancelled(c)
                    else if d.worker.NotSent? then RecordedNotSent(c)
                    else RecordedResult(c, OutcomeOf(d.worker));
      (if c.expired then [] else [Sent(c)]) + (if d.recording == Committed then [record] else [])
  }

  class OutboxDispatcher {
    const gate: H.HealthGate
    var effects: seq<Effect>

    constructor (gate: H.HealthGate)
      ensures this.gate == gate && effects == []
    {
      this.gate := gate;
      effects := [];
    }

    method Note(write: Write)
      modifies gate
      ensures gate.Value() == AfterWrite(old(gate.Value()), write)
    {
      if write == Broken && !gate.database.Unwatched? {
        gate.database := H.Unhealthy(Some(WRITE_FAILED));
      }
    }

    method DispatchNext(d: Delivery) returns (reply: Reply)
      modifies gate, this
      ensures (gate.Value(), reply) == Dispatch(old(gate.Value()), d)
      ensures effects == old(effects) + DispatchEffects(d)
    {
      hide H.Facts, H.Upper;
      if d.claiming != Committed {
        Note(d.claiming);
        return Raised;
      }
      if d.claim.None? {
        return Nothing;
      }
      var command := d.claim.value;
      var record, reason := Cancelled(command), None;
      if !command.expired {
        effects := effects + [Sent(command)];
        if d.worker.NotSent? {
          record, reason := RecordedNotSent(command), Some(WORKER_NOT_READY);
        } else {
          var outcome := if d.worker.Result? then d.worker.outcome else TimeoutAfterPossibleSend;
          record := RecordedResult(command, outcome);
          reason := if outcome == TimeoutAfterPossibleSend then Some(ORDER_UNKNOWN) else None;
        }
      }
      if d.recording != Committed {
        Note(d.recording);
        return Raised;
      }
      effects := effects + [record];
      if reason.Some? {
        gate.BlockScope(command.broker, command.account, reason.value);
      }
      return Handled(command);
    }
  }

  // ---------------------------------------------------------------- submitting

  /** The blockers the risk ledger sets and clears, all of them global. */
  datatype RiskReason = ExposureUnknown | ExposureCurrency | DailyStop | DailyTakeProfit | Cooldown

  function Name(reason: RiskReason): string {
    match reason
    case ExposureUnknown => "HG_EXPOSURE_UNKNOWN"
    case ExposureCurrency => "HG_EXPOSURE_CURRENCY_MISMATCH"
    case DailyStop => "HG_DAILY_STOP_REACHED"
    case DailyTakeProfit => "HG_DAILY_TAKE_PROFIT_REACHED"
    case Cooldown => "HG_COOLDOWN_ACTIVE"
  }

  datatype RiskChange = RiskBlock(reason: RiskReason) | RiskClear(reason: RiskReason)

  function RiskChanged(g: H.Gate, change: RiskChange): H.Gate {
    if change.RiskBlock? then H.Blocked(g, Name(change.reason)) else H.Cleared(g, Name(change.reason))
  }

  function RiskApplied(g: H.Gate, changes: seq<RiskChange>): H.Gate {
    if changes == [] then g else RiskChanged(RiskApplied(g, changes[..|changes| - 1]), changes[|changes| - 1])
  }

  datatype Persisting = Persisted | AccountBusy | RiskLimit | PersistenceFails | OtherError

  datatype Script = Script(
    refresh: seq<RiskChange>, authorized: bool, reserve: seq<RiskChange>, reserved: bool,
    persisting: Persisting, dispatch: bool, delivery: Delivery)

  /** The gate lets new orders of the account through. */
  predicate Admits(g: H.Gate, broker: string, account: string) {
    H.DatabaseReason(g.database).None? && H.Relevant(H.Facts(g), broker, account) == {}
  }

  function Submit(g: H.Gate, broker: string, account: string, script: Script): (H.Gate, Reply) {
    var refreshed := RiskApplied(g, script.refresh);
    if !script.authorized then (refreshed, NotAuthorized)
    else if !Admits(refreshed, broker, account) then (refreshed, GateClosed)
    else
      var reserved := RiskApplied(refreshed, script.reserve);
      if !script.reserved then (reserved, NotReserved)
      else if script.persisting == PersistenceFails then (H.DatabaseFailed(reserved, WRITE_FAILED), NotPersisted)
      else if script.persisting != Persisted then (reserved, NotPersisted)
      else if !script.dispatch then (reserved, Placed)
      else
        var (after, reply) := Dispatch(reserved, script.delivery);
        (after, if reply == Raised then Raised else Placed)
  }

  function SubmitEffects(g: H.Gate, broker: string, account: string, script: Script): seq<Effect> {
    if script.authorized && Admits(RiskApplied(g, script.refresh), broker, account)
       && script.reserved && script.persisting == Persisted
    then [Stored(broker, account)] + if script.dispatch then DispatchEffects(script.delivery) else []
    else []
  }

  function DispatchPending(g: H.Gate, broker: string, account: string, d: Delivery): (H.Gate, Reply) {
    if Admits(g, broker, account) then Dispatch(g, d) else (g, GateClosed)
  }

  /** `dispatch_pending` with whatever scope it is given: half a scope is an error, and without one only
      the global state is asked. */
  function DispatchAny(g: H.Gate, broker: Option<string>, account: Option<string>, d: Delivery): (H.Gate, Reply) {
    if broker.Some? != account.Some? then (g, BadScope)
    else if broker.Some? then DispatchPending(g, broker.value, account.value, d)
    else if AdmitsGlobally(g) then Dispatch(g, d)
    else (g, GateClosed)
  }

  function AnyEffects(g: H.Gate, broker: Option<string>, account: Option<string>, d: Delivery): seq<Effect> {
    if broker.Some? != account.Some? then []
    else if broker.Some? then (if Admits(g, broker.value, account.value) then DispatchEffects(d) else [])
    else if AdmitsGlobally(g) then DispatchEffects(d)
    else []
  }

  predicate AdmitsGlobally(g: H.Gate) {
    H.DatabaseReason(g.database).None? && H.GlobalReasons(H.Facts(g)) == {}
  }

  class OrderCoordinator {
    const gate: H.HealthGate
    const dispatcher: OutboxDispatcher

    constructor (gate: H.HealthGate)
      ensures this.gate == gate && dispatcher.gate == gate && dispatcher.effects == []
    {
      this.gate := gate;
      dispatcher := new OutboxDispatcher(gate);
    }

    method ApplyRisk(changes: seq<RiskChange>)
      modifies gate
      ensures gate.Value() == RiskApplied(old(gate.Value()), changes)
    {
      hide H.Facts, H.Cleared, Name;
      ghost var first := gate.Value();
      for i := 0 to |changes|
        invariant gate.Value() == RiskApplied(first, changes[..i])
      {
        assert changes[..i + 1][..i] == changes[..i];
        if changes[i].RiskBlock? {
          gate.Block(Name(changes[i].reason));
        } else {
          gate.ClearIf(Name(changes[i].reason));
        }
      }
      assert changes[..|changes|] == changes;
    }

    method SubmitOrder(broker: string, account: string, script: Script) returns (reply: Reply)
      requires dispatcher.gate == gate
      modifies gate, dispatcher
      ensures (gate.Value(), reply) == Submit(old(gate.Value()), broker, account, script)
      ensures dispatcher.effects == old(dispatcher.effects) + SubmitEffects(old(gate.Value()), broker, account, script)
    {
      hide H.Facts, H.Relevant, H.IsFirst, H.Priority, RiskApplied, Dispatch, DispatchEffects;
      ApplyRisk(script.refresh);
      if !script.authorized {
        return NotAuthorized;
      }
      var _, state := gate.EnsureOpen(Some(broker), Some(account));
      if state != H.Open {
        return GateClosed;
      }
      ApplyRisk(script.reserve);
      if !script.reserved {
        return NotReserved;
      }
      if script.persisting != Persisted {
        if script.persisting == PersistenceFails {
          gate.FailDatabase(WRITE_FAILED);
        }
        return NotPersisted;
      }
      dispatcher.effects := dispatcher.effects + [Stored(broker, account)];
      if script.dispatch {
        reply := dispatcher.DispatchNext(script.delivery);
        if reply == Raised {
          return;
        }
      }
      return Placed;
    }

    method DispatchPendingOrder(broker: Option<string>, account: Option<string>, d: Delivery) returns (reply: Reply)
      requires dispatcher.gate == gate
      modifies gate, dispatcher
      ensures (gate.Value(), reply) == DispatchAny(old(gate.Value()), broker, account, d)
      ensures dispatcher.effects == old(dispatcher.effects) + AnyEffects(old(gate.Value()), broker, account, d)
    {
      hide H.Facts, H.Relevant, H.GlobalReasons, H.IsFirst, H.Priority, Dispatch, DispatchEffects;
      var halfScope, state := gate.EnsureOpen(broker, account);
      if halfScope {
        return BadScope;
      }
      if state != H.Open {
        return GateClosed;
      }
      reply := dispatcher.DispatchNext(d);
    }
  }

  // ---------------------------------------------------------------- one dispatch

  /** A command is sent exactly when it was claimed and its deadline has not passed; at most one is, and it
      is sent before anything is recorded of it. */
  lemma SentExactly(d: Delivery, c: Command)
    ensures Sent(c) in DispatchEffects(d) <==> d.claiming == Committed && d.claim == Some(c) && !c.expired
    ensures var effects := DispatchEffects(d);
            forall i :: 0 <= i < |effects| ==>
              && (effects[i].Sent? <==> i == 0 && !d.claim.value.expired)
              && !effects[i].Stored?
  {
  }

  /** One record at most, of the claimed command: cancelled if its deadline had passed, not sent if the
      worker was certain of that, and otherwise with the worker's result, or as possibly sent when the
      worker gave none. */
  lemma RecordedExactly(d: Delivery, e: Effect)
    requires !e.Sent? && !e.Stored?
    ensures e in DispatchEffects(d) <==>
            && d.claiming == Committed && d.claim.Some? && d.recording == Committed
            && match e
               case Cancelled(c) => d.claim == Some(c) && c.expired
               case RecordedNotSent(c) => d.claim == Some(c) && !c.expired && d.worker == NotSent
               case RecordedResult(c, outcome) =>
                 && d.claim == Some(c) && !c.expired
                 && match d.worker
                    case Result(o) => outcome == o
                    case NotSent => false
                    case PossiblySent => outcome == TimeoutAfterPossibleSend
                    case Crashed => outcome == TimeoutAfterPossibleSend
  {
  }

  /** What a dispatch leaves in the gate: one fact of the command's account, by what was recorded of it, or
      nothing; and the database's state only when a write of a watched database broke. */
  lemma DispatchLeavesExactly(g: H.Gate, d: Delivery)
    ensures var after := Dispatch(g, d).0;
            var effects := DispatchEffects(d);
            && H.Facts(after) == H.Facts(g)
               + (set c | c in ClaimOf(d) && RecordedNotSent(c) in effects ::
                    H.At(H.Key(c.broker, c.account), "HG_WORKER_NOT_READY"))
               + (set c | c in ClaimOf(d) && RecordedResult(c, TimeoutAfterPossibleSend) in effects ::
                    H.At(H.Key(c.broker, c.account), "HG_ORDER_UNKNOWN"))
            && (after.database != g.database ==>
                  && after.database == H.Unhealthy(Some("DB_WRITE_FAILED")) && !g.database.Unwatched?
                  && (d.claiming == Broken || d.recording == Broken))
  {
    hide H.Upper, H.Facts;
    WriteKeepsFacts(g, d.claiming);
    WriteKeepsFacts(g, d.recording);
    if d.claim.Some? {
      var c := d.claim.value;
      H.BlockedAtFacts(g, c.broker, c.account, ORDER_UNKNOWN);
      H.BlockedAtFacts(g, c.broker, c.account, WORKER_NOT_READY);
    }
  }

  function ClaimOf(d: Delivery): set<Command> {
    if d.claim.Some? then {d.claim.value} else {}
  }

  // ---------------------------------------------------------------- the risk ledger's changes

  /** The last change of that reason, if there is one: whether it blocks. */
  function LastWord(changes: seq<RiskChange>, reason: string): Option<bool> {
    if changes == [] then None
    else
      var last := changes[|changes| - 1];
      if Name(last.reason) == reason then Some(last.RiskBlock?) else LastWord(changes[..|changes| - 1], reason)
  }

  predicate EverCleared(changes: seq<RiskChange>, reason: string) {
    exists i :: 0 <= i < |changes| && changes[i].RiskClear? && Name(changes[i].reason) == reason
  }

  /** What a sequence of changes leaves: globally each reason as its last change says, and of an account's own
      facts those whose reason was never cleared; nothing else. */
  lemma {:induction false} RiskFactsExactly(g: H.Gate, changes: seq<RiskChange>, fact: H.Fact)
    ensures RiskApplied(g, changes).database == g.database
    ensures fact in H.Facts(RiskApplied(g, changes)) <==>
            if fact.At? then fact in H.Facts(g) && !EverCleared(changes, fact.reason)
            else if LastWord(changes, fact.reason).Some? then LastWord(changes, fact.reason).value
            else fact in H.Facts(g)
  {
    if changes != [] {
      var before, change := changes[..|changes| - 1], changes[|changes| - 1];
      assert changes == before + [change];
      RiskFactsExactly(g, before, fact);
      hide H.Facts, Name;
      H.BlockedFacts(RiskApplied(g, before), Name(change.reason));
      H.ClearedFacts(RiskApplied(g, before), Name(change.reason));
      EverClearedGrows(before, change, fact.reason);
    }
  }

  lemma EverClearedGrows(before: seq<RiskChange>, change: RiskChange, reason: string)
    ensures EverCleared(before + [change], reason) <==>
            EverCleared(before, reason) || (change.RiskClear? && Name(change.reason) == reason)
  {
    hide Name;
    var all := before + [change];
    assert all[|before|] == change;
    if EverCleared(before, reason) {
      var i :| 0 <= i < |before| && before[i].RiskClear? && Name(before[i].reason) == reason;
      assert all[i] == before[i];
    }
  }

  // ---------------------------------------------------------------- one submission

  /** Everything that must go well before an order is stored. */
  predicate Cleared(g: H.Gate, broker: string, account: string, script: Script) {
    && script.authorized
    && Admits(RiskApplied(g, script.refresh), broker, account)
    && script.reserved && script.persisting == Persisted
  }

  /** An order is placed exactly when the entry is authorized, the refreshed gate admits the account, the risk
      ledger reserved it, it was persisted, and a dispatch, if asked for, did not raise. */
  lemma PlacedExactly(g: H.Gate, broker: string, account: string, script: Script)
    ensures Submit(g, broker, account, script).1 == Placed <==>
            && Cleared(g, broker, account, script)
            && (script.dispatch ==> script.delivery.claiming == Committed
                                    && (script.delivery.claim.Some? ==> script.delivery.recording == Committed))
    ensures Cleared(g, broker, account, script) <==>
            Stored(broker, account) in SubmitEffects(g, broker, account, script)
  {
    hide Admits, RiskApplied;
  }

  /** Otherwise nothing is stored, sent or recorded, whatever the worker would have done; the gate is that of
      the risk ledger's changes, and of the failed database when persisting failed. */
  lemma OtherwiseNothingHappens(g: H.Gate, broker: string, account: string, script: Script, other: Delivery)
    requires !Cleared(g, broker, account, script)
    ensures SubmitEffects(g, broker, account, script) == []
    ensures Submit(g, broker, account, script) == Submit(g, broker, account, script.(delivery := other))
    ensures var refreshed := RiskApplied(g, script.refresh);
            var reserved := RiskApplied(refreshed, script.reserve);
            var (after, reply) := Submit(g, broker, account, script);
            if !script.authorized then after == refreshed && reply == NotAuthorized
            else if !Admits(refreshed, broker, account) then after == refreshed && reply == GateClosed
            else if !script.reserved then after == reserved && reply == NotReserved
            else
              && reply == NotPersisted
              && after == if script.persisting == PersistenceFails
                          then H.DatabaseFailed(reserved, "DB_WRITE_FAILED") else reserved
  {
    hide Admits, RiskApplied, Dispatch, H.DatabaseFailed;
  }

  /** The claimed command may have reached the broker without anyone knowing. */
  predicate Uncertain(d: Delivery, broker: string, account: string) {
    && d.claiming == Committed && d.claim == Some(Command(broker, account, false))
    && !d.worker.NotSent? && OutcomeOf(d.worker) == TimeoutAfterPossibleSend
  }

  /** An uncertain dispatch of an account the gate admits closes the gate for it, except exactly when
      recording the result was refused, or failed unseen because the gate watches no database. */
  lemma UncertainClosesExactly(g: H.Gate, broker: string, account: string, d: Delivery)
    requires Admits(g, broker, account) && Uncertain(d, broker, account)
    ensures Admits(Dispatch(g, d).0, broker, account) <==>
            d.recording == Refused || (d.recording == Broken && g.database.Unwatched?)
    ensures d.recording == Committed ==> H.At(H.Key(broker, account), ORDER_UNKNOWN) in H.Facts(Dispatch(g, d).0)
  {
    H.BlockedAtFacts(g, broker, account, ORDER_UNKNOWN);
    hide H.Upper, H.Relevant;
    if d.recording == Committed {
      H.FactsHold(H.Facts(Dispatch(g, d).0), broker, account, ORDER_UNKNOWN);
    } else {
      WriteKeepsFacts(g, d.recording);
    }
  }

  lemma WriteKeepsFacts(g: H.Gate, write: Write)
    ensures H.Facts(AfterWrite(g, write)) == H.Facts(g)
  {
  }

  /** Whatever its outcome, a dispatch for an ordinary account leaves every other account's reasons
      as they were. */
  lemma OthersAreUntouched(g: H.Gate, d: Delivery, broker: string, account: string)
    requires d.claim.Some? ==>
               && d.claim.value.account != H.MARKET_DATA
               && H.Key(d.claim.value.broker, d.claim.value.account) != H.Key(broker, account)
    ensures H.Relevant(H.Facts(Dispatch(g, d).0), broker, account) == H.Relevant(H.Facts(g), broker, account)
    ensures d.claiming == Committed && d.recording == Committed ==> Dispatch(g, d).0.database == g.database
  {
    hide H.Upper, H.Relevant, H.Facts;
    WriteKeepsFacts(g, d.claiming);
    WriteKeepsFacts(g, d.recording);
    if d.claim.Some? {
      var c := d.claim.value;
      BlockTouchesNoOther(g, c, ORDER_UNKNOWN, broker, account);
      BlockTouchesNoOther(g, c, WORKER_NOT_READY, broker, account);
    }
  }

  lemma BlockTouchesNoOther(g: H.Gate, c: Command, reason: string, broker: string, account: string)
    requires c.account != H.MARKET_DATA && H.Key(c.broker, c.account) != H.Key(broker, account)
    ensures H.Relevant(H.Facts(H.BlockedAt(g, c.broker, c.account, reason)), broker, account) ==
            H.Relevant(H.Facts(g), broker, account)
  {
    hide H.Upper, H.Relevant, H.Facts;
    H.BlockedAtFacts(g, c.broker, c.account, reason);
    H.ScopedFactsStayHome(H.Facts(g), H.Key(c.broker, c.account), reason, broker, account);
  }

  // ---------------------------------------------------------------- whole runs

  datatype Step =
    | Submits(broker: string, account: string, script: Script)
    | Pending(broker: string, account: string, delivery: Delivery)
    | Blocks(reason: string)
    | Clears(reason: string)
    | BlocksAt(broker: string, account: string, reason: string)
    | ClearsAt(broker: string, account: string, reason: string)
    | DatabaseIs(database: H.Database)

  function Next(g: H.Gate, step: Step): (H.Gate, Reply) {
    match step
    case Submits(broker, account, script) => Submit(g, broker, account, script)
    case Pending(broker, account, delivery) => DispatchPending(g, broker, account, delivery)
    case Blocks(reason) => (H.Blocked(g, reason), Nothing)
    case Clears(reason) => (H.Cleared(g, reason), Nothing)
    case BlocksAt(broker, account, reason) => (H.BlockedAt(g, broker, account, reason), Nothing)
    case ClearsAt(broker, account, reason) => (H.ClearedAt(g, broker, account, reason), Nothing)
    case DatabaseIs(database) => (g.(database := database), Nothing)
  }

  function Run(g: H.Gate, steps: seq<Step>): H.Gate {
    if steps == [] then g else Next(Run(g, steps[..|steps| - 1]), steps[|steps| - 1]).0
  }

  /** The step clears the unknown order of the account, there or everywhere. */
  predicate Frees(step: Step, scope: (string, string)) {
    || step == Clears(ORDER_UNKNOWN)
    || (step.ClearsAt? && H.Key(step.broker, step.account) == scope && step.reason == ORDER_UNKNOWN)
  }

  predicate Holds(g: H.Gate, scope: (string, string)) {
    H.At(scope, ORDER_UNKNOWN) in H.Facts(g)
  }

  lemma RiskIsNotOrders(reason: RiskReason)
    ensures Name(reason) != ORDER_UNKNOWN
  {
  }

  lemma {:induction false} RiskKeepsHold(g: H.Gate, changes: seq<RiskChange>, scope: (string, string))
    requires Holds(g, scope)
    ensures Holds(RiskApplied(g, changes), scope)
  {
    hide H.Facts, H.Cleared, H.Blocked, Name;
    if changes != [] {
      var before, change := RiskApplied(g, changes[..|changes| - 1]), changes[|changes| - 1];
      RiskKeepsHold(g, changes[..|changes| - 1], scope);
      RiskIsNotOrders(change.reason);
      H.BlockedFacts(before, Name(change.reason));
      H.ClearedFacts(before, Name(change.reason));
    }
  }

  lemma HoldRefuses(g: H.Gate, broker: string, account: string)
    requires Holds(g, H.Key(broker, account))
    ensures !Admits(g, broker, account)
  {
    H.FactsHold(H.Facts(g), broker, account, ORDER_UNKNOWN);
  }

  lemma DispatchKeepsHold(g: H.Gate, d: Delivery, scope: (string, string))
    requires Holds(g, scope)
    ensures Holds(Dispatch(g, d).0, scope)
  {
  }

  lemma FailureKeepsHold(g: H.Gate, scope: (string, string))
    requires Holds(g, scope)
    ensures Holds(H.DatabaseFailed(g, WRITE_FAILED), scope)
  {
  }

  lemma SubmitKeepsHold(g: H.Gate, broker: string, account: string, script: Script, scope: (string, string))
    requires Holds(g, scope)
    ensures Holds(Submit(g, broker, account, script).0, scope)
  {
    hide Holds, Admits, RiskApplied, Dispatch, H.DatabaseFailed;
    var refreshed := RiskApplied(g, script.refresh);
    RiskKeepsHold(g, script.refresh, scope);
    RiskKeepsHold(refreshed, script.reserve, scope);
    var reserved := RiskApplied(refreshed, script.reserve);
    FailureKeepsHold(reserved, scope);
    DispatchKeepsHold(reserved, script.delivery, scope);
  }

  lemma ChangeKeepsHold(g: H.Gate, step: Step, scope: (string, string))
    requires Holds(g, scope) && !Frees(step, scope) && !step.Submits? && !step.Pending?
    ensures Holds(Next(g, step).0, scope)
  {
    hide H.Facts, H.Upper, H.Blocked, H.Cleared, H.BlockedAt, H.ClearedAt;
    match step
    case Blocks(reason) => H.BlockedFacts(g, reason);
    case Clears(reason) => H.ClearedFacts(g, reason);
    case BlocksAt(broker, account, reason) => H.BlockedAtFacts(g, broker, account, reason);
    case ClearsAt(broker, account, reason) => H.ClearedAtFacts(g, broker, account, reason);
    case DatabaseIs(database) => FactsIgnoreDatabase(g, database);
  }

  lemma FactsIgnoreDatabase(g: H.Gate, database: H.Database)
    ensures H.Facts(g.(database := database)) == H.Facts(g)
  {
  }

  lemma StepKeepsHold(g: H.Gate, step: Step, scope: (string, string))
    requires Holds(g, scope) && !Frees(step, scope)
    ensures Holds(Next(g, step).0, scope)
  {
    hide Holds, Admits, Submit, Dispatch;
    match step
    case Submits(broker, account, script) => SubmitKeepsHold(g, broker, account, script, scope);
    case Pending(broker, account, delivery) => DispatchKeepsHold(g, delivery, scope);
    case _ => ChangeKeepsHold(g, step, scope);
  }

  /** The step is an uncertain dispatch of the account that the gate let through and that was recorded. */
  predicate LeavesUnknown(g: H.Gate, step: Step, broker: string, account: string) {
    && step.Pending? && step.broker == broker && step.account == account
    && Admits(g, broker, account)
    && Uncertain(step.delivery, broker, account) && step.delivery.recording == Committed
  }

  /** The same from within a submission: it was placed. */
  predicate PlacesUnknown(g: H.Gate, step: Step, broker: string, account: string) {
    && step.Submits? && step.broker == broker && step.account == account
    && Next(g, step).1 == Placed && step.script.dispatch
    && Uncertain(step.script.delivery, broker, account)
  }

  lemma UnknownHolds(g: H.Gate, step: Step, broker: string, account: string)
    requires LeavesUnknown(g, step, broker, account) || PlacesUnknown(g, step, broker, account)
    ensures Holds(Next(g, step).0, H.Key(broker, account))
  {
  }

  lemma {:induction false} HoldLasts(g: H.Gate, steps: seq<Step>, scope: (string, string))
    requires Holds(g, scope) && forall i :: 0 <= i < |steps| ==> !Frees(steps[i], scope)
    ensures Holds(Run(g, steps), scope)
  {
    hide Holds, Next, Frees;
    if steps != [] {
      HoldLasts(g, steps[..|steps| - 1], scope);
      StepKeepsHold(Run(g, steps[..|steps| - 1]), steps[|steps| - 1], scope);
    }
  }

  /** From any state of the gate: once an order's fate is unknown, then whatever else happens to the
      gate, every later submission and every later pending dispatch of that account is turned away
      before anything is persisted or sent, until the unknown order is cleared. */
  lemma {:induction false} RefusedUntilCleared(
    g: H.Gate, first: Step, steps: seq<Step>, broker: string, account: string, script: Script, d: Delivery)
    requires LeavesUnknown(g, first, broker, account) || PlacesUnknown(g, first, broker, account)
    requires forall i :: 0 <= i < |steps| ==> !Frees(steps[i], H.Key(broker, account))
    ensures var later := Run(Next(g, first).0, steps);
            && DispatchPending(later, broker, account, d) == (later, GateClosed)
            && AnyEffects(later, Some(broker), Some(account), d) == []
            && Submit(later, broker, account, script) ==
               (RiskApplied(later, script.refresh), if script.authorized then GateClosed else NotAuthorized)
            && SubmitEffects(later, broker, account, script) == []
  {
    UnknownHolds(g, first, broker, account);
    hide LeavesUnknown, PlacesUnknown, Next, Holds, Admits, RiskApplied, Frees, Dispatch, DispatchEffects, Run;
    var scope := H.Key(broker, account);
    var later := Run(Next(g, first).0, steps);
    HoldLasts(Next(g, first).0, steps, scope);
    HoldRefuses(later, broker, account);
    RiskKeepsHold(later, script.refresh, scope);
    HoldRefuses(RiskApplied(later, script.refresh), broker, account);
  }

  /** And clearing it is enough when it was all there was. */
  lemma ClearingReadmits(g: H.Gate, broker: string, account: string)
    requires Admits(g, broker, account)
    ensures var unknown := H.BlockedAt(g, broker, account, ORDER_UNKNOWN);
            && !Admits(unknown, broker, account)
            && Admits(H.ClearedAt(unknown, broker, account, ORDER_UNKNOWN), broker, account)
  {
  }

  /** A dispatch without a scope has no such promise: it goes ahead exactly when nothing global stands
      against it, whatever is held at the account of the command it claims. */
  lemma UnscopedAsksOnlyTheGlobalGate(g: H.Gate, broker: string, account: string, d: Delivery)
    requires AdmitsGlobally(g)
    ensures var unknown := H.BlockedAt(g, broker, account, ORDER_UNKNOWN);
            && DispatchPending(unknown, broker, account, d) == (unknown, GateClosed)
            && DispatchAny(unknown, None, None, d) == Dispatch(unknown, d)
  {
    hide H.Upper, Dispatch;
    H.BlockedAtFacts(g, broker, account, ORDER_UNKNOWN);
    HoldRefuses(H.BlockedAt(g, broker, account, ORDER_UNKNOWN), broker, account);
  }
}
