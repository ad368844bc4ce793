/** One read-only broker worker session shared by several market series
    (apps/core/broker_shadow_session.py). Supervisor, runtimes and clock are the environment: what
    each of them does during a call is a parameter of the call. */
module ShadowSession {
  datatype ServiceState = Stopped | Starting | Running | Recovering | Failed

  datatype Runtime = Runtime(series: string, polls: nat, failures: nat)

  datatype Session = Session(
    state: ServiceState, registered: seq<string>, runtimes: seq<Runtime>, cursor: nat,
    startAttempts: nat, recoveryAttempts: nat, polls: nat, failures: nat)

  datatype Fault = RegistrationClosed | WrongBroker | DuplicateSeries | SeriesLimit | AlreadyStarted | NoSeries
                 | NotStarted | BadTimeout | FromEnvironment

  datatype Reply = Answer(ready: bool) | Polled(index: nat) | Nothing | Raises(fault: Fault)

  /** How bringing a client up goes: the supervisor or a factory raises before the new runtimes are
      in place, a runtime raises while starting, or all of them start. */
  datatype Bringup = NotInstalled | StartRaises | Up(ready: bool)

  datatype Recovery = DisconnectRaises | StopRaises | Restart(bringup: Bringup)

  datatype Worker = WorkerReady(pollRaises: bool) | WorkerNotReady

  datatype Call =
    | Register(broker: string, series: string, own: string, maxSeries: nat)
    | Start(bringup: Bringup)
    | Poll(timeout: real, worker: Worker, disconnectRaises: bool)
    | Recover(recovery: Recovery)
    | Shutdown(resourcesRaise: bool)

  const NEW := Session(Stopped, [], [], 0, 0, 0, 0, 0)

  // ---------------------------------------------------------------- one call

  function FreshRuntimes(registered: seq<string>): seq<Runtime> {
    seq(|registered|, i requires 0 <= i < |registered| => Runtime(registered[i], 0, 0))
  }

  function BroughtUp(s: Session, bringup: Bringup): (Session, Reply) {
    match bringup
    case NotInstalled => (s.(state := Failed, runtimes := []), Raises(FromEnvironment))
    case StartRaises => (s.(state := Failed, runtimes := [], cursor := 0), Raises(FromEnvironment))
    case Up(ready) =>
      (s.(state := if ready then Running else Recovering, runtimes := FreshRuntimes(s.registered), cursor := 0),
       Answer(ready))
  }

  /** `own` is the session's broker and `broker` that of the series. */
  function DoRegister(s: Session, broker: string, series: string, own: string, maxSeries: nat): (Session, Reply) {
    if s.state != Stopped then (s, Raises(RegistrationClosed))
    else if broker != own then (s, Raises(WrongBroker))
    else if series in s.registered then (s, Raises(DuplicateSeries))
    else if |s.registered| >= maxSeries then (s, Raises(SeriesLimit))
    else (s.(registered := s.registered + [series]), Nothing)
  }

  function DoStart(s: Session, bringup: Bringup): (Session, Reply) {
    if s.state == Running then (s, Answer(true))
    else if s.state != Stopped then (s, Raises(AlreadyStarted))
    else if s.registered == [] then (s, Raises(NoSeries))
    else BroughtUp(s.(startAttempts := s.startAttempts + 1), bringup)
  }

  function DoPoll(s: Session, timeout: real, worker: Worker, disconnectRaises: bool): (Session, Reply) {
    if timeout <= 0.0 then (s, Raises(BadTimeout))
    else if s.state == Stopped || s.runtimes == [] then (s, Raises(NotStarted))
    else if s.state != Running then (s, Nothing)
    else if worker.WorkerNotReady? then
      var failed := s.(failures := s.failures + 1);
      if disconnectRaises then (failed, Raises(FromEnvironment)) else (failed.(state := Recovering), Nothing)
    else
      var i := s.cursor % |s.runtimes|;
      var entry := s.runtimes[i];
      var polled := s.(cursor := (s.cursor + 1) % |s.runtimes|, polls := s.polls + 1,
                       runtimes := s.runtimes[i := entry.(polls := entry.polls + 1)]);
      if !worker.pollRaises then (polled, Polled(i))
      else
        var blamed := entry.(polls := entry.polls + 1, failures := entry.failures + 1);
        var failed := polled.(failures := s.failures + 1, runtimes := s.runtimes[i := blamed]);
        (if disconnectRaises then failed else failed.(state := Recovering), Raises(FromEnvironment))
  }

  function DoRecover(s: Session, recovery: Recovery): (Session, Reply) {
    if s.state == Stopped then (s, Raises(NotStarted))
    else
      var t := s.(state := Recovering, recoveryAttempts := s.recoveryAttempts + 1);
      match recovery
      case DisconnectRaises => (t, Raises(FromEnvironment))
      case StopRaises => (t.(runtimes := []), Raises(FromEnvironment))
      case Restart(bringup) => BroughtUp(t.(runtimes := []), bringup)
  }

  function DoShutdown(s: Session, resourcesRaise: bool): (Session, Reply) {
    if s.state == Stopped then (s, Nothing)
    else if resourcesRaise then (s.(runtimes := []), Raises(FromEnvironment))
    else (s.(state := Stopped, runtimes := []), Nothing)
  }

  function Do(s: Session, c: Call): (Session, Reply) {
    match c
    case Register(broker, series, own, maxSeries) => DoRegister(s, broker, series, own, maxSeries)
    case Start(bringup) => DoStart(s, bringup)
    case Poll(timeout, worker, disconnectRaises) => DoPoll(s, timeout, worker, disconnectRaises)
    case Recover(recovery) => DoRecover(s, recovery)
    case Shutdown(resourcesRaise) => DoShutdown(s, resourcesRaise)
  }

  class BrokerShadowSession {
    const broker: string
    const maxSeries: nat
    var state: ServiceState
    var registered: seq<string>
    var runtimes: seq<Runtime>
    var cursor: nat
    var startAttempts: nat
    var recoveryAttempts: nat
    var polls: nat
    var failures: nat

    function Value(): Session
      reads this
    {
      Session(state, registered, runtimes, cursor, startAttempts, recoveryAttempts, polls, failures)
    }

    constructor (broker: string, maxSeries: nat)
      ensures Value() == NEW && this.broker == broker && this.maxSeries == maxSeries
    {
      this.broker, this.maxSeries := broker, maxSeries;
      state, registered, runtimes, cursor := Stopped, [], [], 0;
      startAttempts, recoveryAttempts, polls, failures := 0, 0, 0, 0;
    }

    method RegisterSeries(seriesBroker: string, series: string) returns (reply: Reply)
      modifies this
      ensures (Value(), reply) == DoRegister(old(Value()), seriesBroker, series, broker, maxSeries)
    {
      if state != Stopped {
        return Raises(RegistrationClosed);
      }
      if seriesBroker != broker {
        return Raises(WrongBroker);
      }
      if series in registered {
        return Raises(DuplicateSeries);
      }
      if |registered| >= maxSeries {
        return Raises(SeriesLimit);
      }
      registered := registered + [series];
      return Nothing;
    }

    /** The part `start` and `recover` share: new runtimes, or a failed session without any. */
    method BringUp(bringup: Bringup) returns (reply: Reply)
      modifies this
      ensures (Value(), reply) == BroughtUp(old(Value()), bringup)
    {
      if bringup.Up? {
        InstallRuntimes();
        state := if bringup.ready then Running else Recovering;
        return Answer(bringup.ready);
      }
      state := Failed;
      cursor := if bringup.StartRaises? then 0 else cursor;
      runtimes := [];
      return Raises(FromEnvironment);
    }

    method InstallRuntimes()
      modifies this`runtimes, this`cursor
      ensures runtimes == FreshRuntimes(registered) && cursor == 0
    {
      var installed: seq<Runtime> := [];
      for i := 0 to |registered|
        invariant installed == FreshRuntimes(registered)[..i]
      {
        installed := installed + [Runtime(registered[i], 0, 0)];
      }
      runtimes, cursor := installed, 0;
    }

    method StartSession(bringup: Bringup) returns (reply: Reply)
      modifies this
      ensures (Value(), reply) == DoStart(old(Value()), bringup)
    {
      if state == Running {
        return Answer(true);
      }
      if state != Stopped {
        return Raises(AlreadyStarted);
      }
      if registered == [] {
        return Raises(NoSeries);
      }
      startAttempts := startAttempts + 1;
      reply := BringUp(bringup);
    }

    method PollOnce(timeout: real, worker: Worker, disconnectRaises: bool) returns (reply: Reply)
      modifies this
      ensures (Value(), reply) == DoPoll(old(Value()), timeout, worker, disconnectRaises)
    {
      if timeout <= 0.0 {
        return Raises(BadTimeout);
      }
      if state == Stopped || runtimes == [] {
        return Raises(NotStarted);
      }
      if state != Running {
        return Nothing;
      }
      if worker.WorkerNotReady? {
        failures := failures + 1;
        if disconnectRaises {
          return Raises(FromEnvironment);
        }
        state := Recovering;
        return Nothing;
      }
      var i := cursor % |runtimes|;
      cursor := (cursor + 1) % |runtimes|;
      polls := polls + 1;
      var entry := runtimes[i];
      entry := entry.(polls := entry.polls + 1);
      if worker.pollRaises {
        failures := failures + 1;
        entry := entry.(failures := entry.failures + 1);
        state := if disconnectRaises then Running else Recovering;
      }
      runtimes := runtimes[i := entry];
      return if worker.pollRaises then Raises(FromEnvironment) else Polled(i);
    }

    method RecoverSession(recovery: Recovery) returns (reply: Reply)
      modifies this
      ensures (Value(), reply) == DoRecover(old(Value()), recovery)
    {
      if state == Stopped {
        return Raises(NotStarted);
      }
      state := Recovering;
      recoveryAttempts := recoveryAttempts + 1;
      if recovery.DisconnectRaises? {
        return Raises(FromEnvironment);
      }
      runtimes := [];
      if recovery.StopRaises? {
        return Raises(FromEnvironment);
      }
      reply := BringUp(recovery.bringup);
    }

    method ShutdownSession(resourcesRaise: bool) returns (reply: Reply)
      modifies this
      ensures (Value(), reply) == DoShutdown(old(Value()), resourcesRaise)
    {
      if state == Stopped {
        return Nothing;
      }
      runtimes := [];
      if resourcesRaise {
        return Raises(FromEnvironment);
      }
      state := Stopped;
      return Nothing;
    }
  }

  // ---------------------------------------------------------------- whole runs

  /** The session, the polls made since its runtimes were last installed, and those of all the
      runtimes discarded before. */
  datatype World = World(session: Session, sinceInstall: nat, retired: nat)

  predicate PollsASeries(s: Session, c: Call) {
    c.Poll? && c.timeout > 0.0 && s.runtimes != [] && s.state == Running && c.worker.WorkerReady?
  }

  function Next(w: World, c: Call): World {
    var after := Do(w.session, c).0;
    if PollsASeries(w.session, c) then World(after, w.sinceInstall + 1, w.retired)
    else if after.runtimes != w.session.runtimes then World(after, 0, w.retired + w.sinceInstall)
    else World(after, w.sinceInstall, w.retired)
  }

  function Run(calls: seq<Call>): World {
    if calls == [] then World(NEW, 0, 0) else Next(Run(calls[..|calls| - 1]), calls[|calls| - 1])
  }

  function TotalPolls(runtimes: seq<Runtime>): nat {
    if runtimes == [] then 0 else TotalPolls(runtimes[..|runtimes| - 1]) + runtimes[|runtimes| - 1].polls
  }

  function TotalFailures(runtimes: seq<Runtime>): nat {
    if runtimes == [] then 0 else TotalFailures(runtimes[..|runtimes| - 1]) + runtimes[|runtimes| - 1].failures
  }

  /** Everyone has had the same number of turns, and those before the cursor one more. */
  ghost predicate InRounds(runtimes: seq<Runtime>, cursor: nat, rounds: nat) {
    forall i :: 0 <= i < |runtimes| ==> runtimes[i].polls == rounds + if i < cursor then 1 else 0
  }

  ghost predicate Installed(s: Session) {
    && |s.runtimes| == |s.registered| && s.cursor < |s.runtimes|
    && (forall i :: 0 <= i < |s.runtimes| ==>
          s.runtimes[i].series == s.registered[i] && s.runtimes[i].failures <= s.runtimes[i].polls)
    && exists rounds: nat :: InRounds(s.runtimes, s.cursor, rounds)
  }

  ghost predicate SeriesInv(s: Session) {
    && (s.runtimes != [] ==> Installed(s))
    && (s.state in {Stopped, Failed} ==> s.runtimes == [])
    && (s.state != Stopped ==> s.registered != [])
    && s.state != Starting
  }

  predicate CountsInv(w: World) {
    && TotalPolls(w.session.runtimes) == w.sinceInstall
    && w.session.polls == w.retired + w.sinceInstall
    && TotalFailures(w.session.runtimes) <= w.session.failures
  }

  lemma Turn(cursor: nat, n: nat)
    requires cursor < n
    ensures cursor % n == cursor
    ensures (cursor + 1) % n == if cursor + 1 == n then 0 else cursor + 1
  {
  }

  lemma {:induction false} TotalsOfUpdate(runtimes: seq<Runtime>, i: nat, entry: Runtime)
    requires i < |runtimes|
    ensures TotalPolls(runtimes[i := entry]) == TotalPolls(runtimes) - runtimes[i].polls + entry.polls
    ensures TotalFailures(runtimes[i := entry]) == TotalFailures(runtimes) - runtimes[i].failures + entry.failures
  {
    var n := |runtimes| - 1;
    if i < n {
      TotalsOfUpdate(runtimes[..n], i, entry);
      assert runtimes[i := entry][..n] == runtimes[..n][i := entry];
    } else {
      assert runtimes[i := entry][..n] == runtimes[..n];
    }
  }

  lemma {:induction false} FreshTotals(runtimes: seq<Runtime>)
    requires forall i :: 0 <= i < |runtimes| ==> runtimes[i].polls == 0 && runtimes[i].failures == 0
    ensures TotalPolls(runtimes) == 0 && TotalFailures(runtimes) == 0
  {
    if runtimes != [] {
      FreshTotals(runtimes[..|runtimes| - 1]);
    }
  }

  lemma FreshIsInstalled(s: Session)
    requires s.registered != [] && s.cursor == 0 && s.runtimes == FreshRuntimes(s.registered)
    ensures Installed(s) && s.runtimes != []
    ensures TotalPolls(s.runtimes) == 0 && TotalFailures(s.runtimes) == 0
  {
    assert InRounds(s.runtimes, 0, 0);
    FreshTotals(s.runtimes);
  }

  lemma TurnKeepsRounds(runtimes: seq<Runtime>, cursor: nat, rounds: nat, entry: Runtime) returns (r: nat)
    requires InRounds(runtimes, cursor, rounds) && cursor < |runtimes|
    requires entry.polls == runtimes[cursor].polls + 1
    ensures InRounds(runtimes[cursor := entry], if cursor + 1 == |runtimes| then 0 else cursor + 1, r)
  {
    r := if cursor + 1 == |runtimes| then rounds + 1 else rounds;
  }

  lemma PollKeepsInv(w: World, c: Call)
    requires SeriesInv(w.session) && CountsInv(w) && PollsASeries(w.session, c)
    ensures SeriesInv(Next(w, c).session) && CountsInv(Next(w, c))
  {
    hide InRounds, TotalPolls, TotalFailures;
    var s := w.session;
    var rounds: nat :| InRounds(s.runtimes, s.cursor, rounds);
    Turn(s.cursor, |s.runtimes|);
    var turn := s.runtimes[s.cursor];
    var entry := turn.(polls := turn.polls + 1, failures := turn.failures + if c.worker.pollRaises then 1 else 0);
    var _ := TurnKeepsRounds(s.runtimes, s.cursor, rounds, entry);
    TotalsOfUpdate(s.runtimes, s.cursor, entry);
    assert Next(w, c).session.runtimes == s.runtimes[s.cursor := entry];
  }

  /** New runtimes start their own count; the old ones' turns are retired. */
  lemma BringupKeepsInv(w: World, s: Session, bringup: Bringup)
    requires SeriesInv(w.session) && CountsInv(w)
    requires s.registered == w.session.registered != []
    requires s.polls == w.session.polls && s.failures == w.session.failures
    ensures var after := BroughtUp(s, bringup).0;
            var sinceInstall := if after.runtimes == w.session.runtimes then w.sinceInstall else 0;
            SeriesInv(after) && CountsInv(World(after, sinceInstall, w.retired + w.sinceInstall - sinceInstall))
  {
    hide InRounds, FreshRuntimes;
    var after := BroughtUp(s, bringup).0;
    if bringup.Up? {
      FreshIsInstalled(after);
    }
  }

  lemma OtherKeepsInv(w: World, c: Call)
    requires SeriesInv(w.session) && CountsInv(w) && !PollsASeries(w.session, c)
    ensures SeriesInv(Next(w, c).session) && CountsInv(Next(w, c))
  {
    hide InRounds, FreshRuntimes, BroughtUp, TotalFailures;
    var s := w.session;
    if c.Start? && s.state == Stopped && s.registered != [] {
      BringupKeepsInv(w, s.(startAttempts := s.startAttempts + 1), c.bringup);
    } else if c.Recover? && c.recovery.Restart? && s.state != Stopped {
      BringupKeepsInv(w, s.(state := Recovering, recoveryAttempts := s.recoveryAttempts + 1, runtimes := []),
                      c.recovery.bringup);
    } else {
      NoTotals();
    }
  }

  lemma NoTotals()
    ensures TotalPolls([]) == 0 && TotalFailures([]) == 0
  {
  }

  lemma NewKeepsInv()
    ensures SeriesInv(NEW) && CountsInv(World(NEW, 0, 0))
  {
  }

  lemma {:induction false} RunKeepsInv(calls: seq<Call>)
    ensures SeriesInv(Run(calls).session) && CountsInv(Run(calls))
  {
    hide SeriesInv, CountsInv, Next, PollsASeries;
    if calls == [] {
      NewKeepsInv();
    } else {
      var w, c := Run(calls[..|calls| - 1]), calls[|calls| - 1];
      RunKeepsInv(calls[..|calls| - 1]);
      if PollsASeries(w.session, c) {
        PollKeepsInv(w, c);
      } else {
        OtherKeepsInv(w, c);
      }
    }
  }

  // ---------------------------------------------------------------- what the session promises

  /** Whatever the polls raise and however often the session recovers: since the runtimes were last
      installed the turns of any two series differ by at most one, earlier series ahead; the turns
      add up to the polls made since; and no poll of the session's life is lost or counted twice. */
  lemma {:induction false} TurnsAreFair(calls: seq<Call>)
    ensures var w := Run(calls);
            var runtimes := w.session.runtimes;
            && (forall i, j :: 0 <= i < j < |runtimes| ==>
                  runtimes[j].polls <= runtimes[i].polls <= runtimes[j].polls + 1)
            && TotalPolls(runtimes) == w.sinceInstall
            && w.session.polls == w.retired + w.sinceInstall
  {
    RunKeepsInv(calls);
    hide Run, TotalPolls, TotalFailures;
    var s := Run(calls).session;
    if s.runtimes != [] {
      var rounds: nat :| InRounds(s.runtimes, s.cursor, rounds);
    }
  }

  /** Runtimes, when there are any, are those of the registered series in order; a session that is
      stopped or failed has none; and a failed one stays as it is until recovered or shut down. */
  lemma {:induction false} StateTellsSeries(calls: seq<Call>, c: Call)
    ensures var s := Run(calls).session;
            && (s.runtimes != [] ==>
                  |s.runtimes| == |s.registered|
                  && forall i :: 0 <= i < |s.runtimes| ==> s.runtimes[i].series == s.registered[i])
            && (s.state in {Stopped, Failed} ==> s.runtimes == [])
            && (s.state == Failed && !c.Recover? && !c.Shutdown? ==> Do(s, c).0 == s)
  {
    RunKeepsInv(calls);
    hide Run;
  }

  /** Running, but without the runtimes. */
  predicate Stripped(s: Session) {
    s.state == Running && s.runtimes == []
  }

  /** A shutdown at position `i` raised while the session was running, and neither a recovery nor a
      shutdown that went through came after it. */
  predicate StrippedAt(calls: seq<Call>, i: nat)
    requires i < |calls|
  {
    && calls[i] == Shutdown(true) && Run(calls[..i]).session.state == Running
    && forall j :: i < j < |calls| ==> !calls[j].Recover? && calls[j] != Shutdown(false)
  }

  lemma StrippingStep(w: World, c: Call)
    requires w.session.state != Stopped ==> w.session.registered != []
    ensures Stripped(Next(w, c).session) <==>
            || (c == Shutdown(true) && w.session.state == Running)
            || (Stripped(w.session) && !c.Recover? && c != Shutdown(false))
  {
  }

  lemma StrippedAtGrows(calls: seq<Call>, i: nat)
    requires i < |calls| - 1
    ensures StrippedAt(calls, i) <==>
            StrippedAt(calls[..|calls| - 1], i) && !calls[|calls| - 1].Recover? && calls[|calls| - 1] != Shutdown(false)
  {
    hide Run;
    var before := calls[..|calls| - 1];
    assert calls[..i] == before[..i];
    assert forall j :: 0 <= j < |before| ==> before[j] == calls[j];
  }

  /** A session is running without its runtimes if and only if a shutdown raised while it was running
      and nothing has recovered it or shut it down since. */
  lemma {:induction false} RunningHasSeriesExactly(calls: seq<Call>)
    ensures Stripped(Run(calls).session) <==> exists i :: 0 <= i < |calls| && StrippedAt(calls, i)
  {
    if calls != [] {
      var n := |calls| - 1;
      var before, c := calls[..n], calls[n];
      RunningHasSeriesExactly(before);
      RunKeepsInv(before);
      RunUnfolds(calls);
      assert StrippedAt(calls, n) <==> c == Shutdown(true) && Run(before).session.state == Running;
      hide Run, Next, Installed, CountsInv, StrippedAt, Stripped;
      StrippingStep(Run(before), c);
      forall i | 0 <= i < n
        ensures StrippedAt(calls, i) <==> StrippedAt(before, i) && !c.Recover? && c != Shutdown(false)
      {
        StrippedAtGrows(calls, i);
      }
    }
  }

  lemma RunUnfolds(calls: seq<Call>)
    requires calls != []
    ensures Run(calls) == Next(Run(calls[..|calls| - 1]), calls[|calls| - 1])
  {
  }

  /** On such a session every poll raises. */
  lemma RaisingShutdownLeavesItRunning(s: Session, timeout: real, worker: Worker, disconnectRaises: bool)
    requires s.state == Running && timeout > 0.0
    ensures var t := DoShutdown(s, true).0;
            && t.state == Running && t.runtimes == []
            && DoPoll(t, timeout, worker, disconnectRaises) == (t, Raises(NotStarted))
  {
  }
}
