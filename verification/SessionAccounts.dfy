/** The books of the shadow session (apps/core/broker_shadow_session.py): who may register, how the state
    moves with every call, and what each counter counts over whole runs. */
module SessionAccounts {
  import opened ShadowSession

  // ---------------------------------------------------------------- registering

  /** A series is registered exactly while the session is stopped, for its own broker, once, and while there
      is room; any other attempt raises and changes nothing. */
  lemma RegistersExactly(s: Session, broker: string, series: string, own: string, maxSeries: nat)
    ensures var (after, reply) := DoRegister(s, broker, series, own, maxSeries);
            && (reply == Nothing <==>
                  s.state == Stopped && broker == own && series !in s.registered && |s.registered| < maxSeries)
            && (reply == Nothing ==> after.registered == s.registered + [series])
            && (reply != Nothing ==> after == s && reply.Raises?)
  {
  }

  predicate Distinct(names: seq<string>) {
    forall i, j :: 0 <= i < j < |names| ==> names[i] != names[j]
  }

  /** No series is ever registered twice, and no more of them than the session was made for. */
  lemma {:induction false} RegistrationsAreDistinct(calls: seq<Call>, maxSeries: nat)
    requires forall i :: 0 <= i < |calls| && calls[i].Register? ==> calls[i].maxSeries == maxSeries
    ensures Distinct(Run(calls).session.registered) && |Run(calls).session.registered| <= maxSeries
  {
    if calls != [] {
      var before, c := calls[..|calls| - 1], calls[|calls| - 1];
      RegistrationsAreDistinct(before, maxSeries);
      OnlyRegisteringRegisters(Run(before).session, c);
      hide Do, Distinct;
      if c.Register? {
        OneMoreIsDistinct(Run(before).session, c);
      }
    }
  }

  lemma OnlyRegisteringRegisters(s: Session, c: Call)
    ensures !c.Register? ==> Do(s, c).0.registered == s.registered
  {
  }

  lemma OneMoreIsDistinct(s: Session, c: Call)
    requires c.Register? && Distinct(s.registered) && |s.registered| <= c.maxSeries
    ensures Distinct(Do(s, c).0.registered) && |Do(s, c).0.registered| <= c.maxSeries
  {
  }

  // ---------------------------------------------------------------- how the state moves

  predicate Starts(s: Session, c: Call) {
    c.Start? && s.state == Stopped && s.registered != []
  }

  predicate Recovers(s: Session, c: Call) {
    c.Recover? && s.state != Stopped
  }

  /** The poll meets a worker that is not ready, or a series that raises. */
  predicate PollFails(s: Session, c: Call) {
    && c.Poll? && c.timeout > 0.0 && s.runtimes != [] && s.state == Running
    && (c.worker.WorkerNotReady? || c.worker.pollRaises)
  }

  /** The clients are brought up by this call, and this is how it goes. */
  predicate BringsUp(s: Session, c: Call, bringup: Bringup) {
    || (Starts(s, c) && c.bringup == bringup)
    || (Recovers(s, c) && c.recovery == Restart(bringup))
  }

  predicate LeavesAlone(s: Session, c: Call) {
    !Starts(s, c) && !Recovers(s, c) && c != Shutdown(false) && !(PollFails(s, c) && !c.disconnectRaises)
  }

  /** The state after every call. */
  lemma StateMoves(s: Session, c: Call)
    ensures var after := Do(s, c).0.state;
            && (after == Stopped <==> c == Shutdown(false) || (s.state == Stopped && !Starts(s, c)))
            && (after == Running <==> BringsUp(s, c, Up(true)) || (LeavesAlone(s, c) && s.state == Running))
            && (after == Failed <==>
                  || BringsUp(s, c, NotInstalled) || BringsUp(s, c, StartRaises)
                  || (LeavesAlone(s, c) && s.state == Failed))
            && (after == Recovering <==>
                  || BringsUp(s, c, Up(false))
                  || (Recovers(s, c) && !c.recovery.Restart?)
                  || (PollFails(s, c) && !c.disconnectRaises)
                  || (LeavesAlone(s, c) && s.state == Recovering))
  {
    hide FreshRuntimes;
  }

  /** What every call answers. */
  lemma RepliesExactly(s: Session, c: Call)
    ensures var reply := Do(s, c).1;
            && (forall ready :: reply == Answer(ready) <==>
                  || BringsUp(s, c, Up(ready))
                  || (ready && c.Start? && s.state == Running))
            && (reply == Raises(AlreadyStarted) <==> c.Start? && s.state !in {Stopped, Running})
            && (reply == Raises(NoSeries) <==> c.Start? && s.state == Stopped && s.registered == [])
            && (reply == Raises(BadTimeout) <==> c.Poll? && c.timeout <= 0.0)
            && (reply == Raises(NotStarted) <==>
                  || (c.Recover? && s.state == Stopped)
                  || (c.Poll? && c.timeout > 0.0 && (s.state == Stopped || s.runtimes == [])))
            && (reply.Polled? <==> PollsASeries(s, c) && !c.worker.pollRaises)
  {
    hide FreshRuntimes;
  }

  // ---------------------------------------------------------------- what the counters count

  datatype Tally = Tally(starts: nat, recoveries: nat, polls: nat, failures: nat)

  function One(b: bool): nat {
    if b then 1 else 0
  }

  /** The events of a run, counted one by one. */
  function Count(calls: seq<Call>): Tally {
    if calls == [] then Tally(0, 0, 0, 0)
    else
      var s, c := Run(calls[..|calls| - 1]).session, calls[|calls| - 1];
      var t := Count(calls[..|calls| - 1]);
      Tally(t.starts + One(Starts(s, c)), t.recoveries + One(Recovers(s, c)),
            t.polls + One(PollsASeries(s, c)), t.failures + One(PollFails(s, c)))
  }

  lemma CallCounts(s: Session, c: Call)
    ensures var after := Do(s, c).0;
            && after.startAttempts == s.startAttempts + One(Starts(s, c))
            && after.recoveryAttempts == s.recoveryAttempts + One(Recovers(s, c))
            && after.polls == s.polls + One(PollsASeries(s, c))
            && after.failures == s.failures + One(PollFails(s, c))
  {
    hide FreshRuntimes;
  }

  /** In every run each counter is the number of times its event happened: starts and recoveries attempted,
      polls made of a series, and polls that failed, a worker found not ready among them. */
  lemma {:induction false} CountersAreExact(calls: seq<Call>)
    ensures var s, t := Run(calls).session, Count(calls);
            && s.startAttempts == t.starts && s.recoveryAttempts == t.recoveries
            && s.polls == t.polls && s.failures == t.failures
  {
    if calls != [] {
      CountersAreExact(calls[..|calls| - 1]);
      CallCounts(Run(calls[..|calls| - 1]).session, calls[|calls| - 1]);
      hide Do, Starts, Recovers, PollsASeries, PollFails, One;
    }
  }
}
