/** What failures and successes do to later logins, and what the controller reports, over every run
    (apps/core/iqoption_connection_safety.py). */
module LoginReports {
  import opened Optional
  import opened SlidingWindow
  import opened LoginSafety

  // ---------------------------------------------------------------- admissions by the history

  /** A saving request is admitted exactly when no quarantine is running and fewer than three logins of
      the whole history are less than fifteen minutes old. */
  lemma {:induction false} AdmittedExactly(events: seq<Event>, t: real)
    requires Legal(START, events) && t >= Run(START, events).clock
    ensures var w := Run(START, events);
            IsAdmitted(Answer(w, Admit(t, true))) <==>
              w.cell.memory.quarantineUntil <= t && |After(w.admitted, t - 900.0)| < 3
  {
    RunKeepsInv(events);
    DiskAndMemoryAgree(events, t);
    hide After, Run;
  }

  // ---------------------------------------------------------------- failures

  /** No success was recorded: none was reported, or saving it failed. */
  predicate NoSuccessSaved(events: seq<Event>) {
    forall i :: 0 <= i < |events| && events[i].Success? ==> !events[i].saves
  }

  /** The quarantine lasts at least until `q`. */
  ghost predicate HeldUntil(w: World, q: real) {
    Inv(w) && w.cell.memory.quarantineUntil >= q
  }

  lemma StepKeepsHeld(w: World, q: real, e: Event)
    requires HeldUntil(w, q) && (e.Restart? || w.clock <= e.now < q) && (e.Success? ==> !e.saves)
    ensures HeldUntil(Step(w, e), q)
  {
    StepKeepsInv(w, e);
    hide After, Spaced, Ascending, Recent, NotLater, RetryAfter;
  }

  lemma {:induction false} StaysHeld(w: World, q: real, events: seq<Event>)
    requires HeldUntil(w, q) && Legal(w, events) && NoSuccessSaved(events) && Run(w, events).clock < q
    ensures HeldUntil(Run(w, events), q)
  {
    if events != [] {
      var earlier, last := events[..|events| - 1], events[|events| - 1];
      assert NoSuccessSaved(earlier) && (last.Success? ==> !last.saves);
      hide HeldUntil, Step, NoSuccessSaved;
      ClockGrows(w, events);
      StaysHeld(w, q, earlier);
      StepKeepsHeld(Run(w, earlier), q, last);
    }
  }

  lemma ClockGrows(w: World, events: seq<Event>)
    requires events != [] && Legal(w, events)
    ensures Run(w, events[..|events| - 1]).clock <= Run(w, events).clock
    ensures !events[|events| - 1].Restart? ==> events[|events| - 1].now == Run(w, events).clock
  {
  }

  /** In every run: after a saved failure at `t` for a wrong password, a second factor or a rate limit,
      every request in the next fifteen minutes is refused, through further failures, failed saves
      and restarts, unless a success has been recorded; and it is told to wait at least the rest. */
  lemma {:induction false} FailureShutsOut(
    events: seq<Event>, t: real, reason: string, later: seq<Event>, t': real, saves: bool)
    requires Legal(START, events) && t >= Run(START, events).clock
    requires reason in {"IQOPTION_AUTH_FAILED", "IQOPTION_2FA_REQUIRED", "IQOPTION_RATE_LIMITED"}
    requires var w := Step(Run(START, events), Failure(t, true, reason));
             Legal(w, later) && NoSuccessSaved(later) && Run(w, later).clock <= t' < t + 900.0
    ensures var w := Step(Run(START, events), Failure(t, true, reason));
            var reply := Answer(Run(w, later), Admit(t', saves));
            && Refused(reply)
            && reply.decision.retryAfterSeconds as real >= t + 900.0 - t'
  {
    var before := Run(START, events);
    var w := Step(before, Failure(t, true, reason));
    RunKeepsInv(events);
    StepKeepsInv(before, Failure(t, true, reason));
    assert HeldUntil(w, t + 900.0) by {
      hide After, Inv;
    }
    hide Inv, Run, Step;
    StaysHeld(w, t + 900.0, later);
    HeldRefuses(Run(w, later), t + 900.0, t', saves);
  }

  lemma HeldRefuses(w: World, q: real, t: real, saves: bool)
    requires HeldUntil(w, q) && w.clock <= t < q
    ensures var reply := Answer(w, Admit(t, saves));
            Refused(reply) && reply.decision.retryAfterSeconds as real >= q - t
  {
    hide After, Spaced, Ascending, Recent, NotLater;
  }

  /** Any other failure leaves the end of the quarantine alone, and one that is not saved changes nothing. */
  lemma OtherFailuresLeaveIt(c: Cell, t: real, saves: bool, reason: string)
    requires !saves || reason !in {"IQOPTION_AUTH_FAILED", "IQOPTION_2FA_REQUIRED", "IQOPTION_RATE_LIMITED"}
    ensures var after := Apply(c, Failure(t, saves, reason)).0;
            && after.memory.quarantineUntil == c.memory.quarantineUntil
            && (!saves ==> after == c)
  {
  }

  /** A saved success lifts whatever quarantine there was: the next saving request is admitted exactly when
      fewer than three logins are live. */
  lemma {:induction false} SuccessLetsIn(events: seq<Event>, t: real, t': real)
    requires Legal(START, events) && Run(START, events).clock <= t <= t' && t >= 0.0
    ensures var w := Step(Run(START, events), Success(t, true));
            && w.admitted == Run(START, events).admitted
            && (IsAdmitted(Answer(w, Admit(t', true))) <==> |After(w.admitted, t' - 900.0)| < 3)
  {
    var e := Success(t, true);
    var all := events + [e];
    assert all[..|all| - 1] == events;
    AdmittedExactly(all, t');
    hide After;
  }

  // ---------------------------------------------------------------- reports

  /** The answer tells how many logins of the whole history are live, and for how long the quarantine still
      runs, rounded up to whole seconds; `active` and the last reason are those of the state. */
  ghost predicate Reports(w: World, now: real, attempts: nat, retry: nat) {
    var until := w.cell.memory.quarantineUntil;
    && attempts == |After(w.admitted, now - 900.0)|
    && (retry == 0 <==> until <= now)
    && (retry > 0 ==> until - now <= retry as real < until - now + 1.0)
  }

  /** Every answer and every snapshot of every run reports the state it leaves behind. */
  lemma {:induction false} AnswersReport(events: seq<Event>, e: Event)
    requires Legal(START, events) && !e.Restart? && e.now >= Run(START, events).clock
    ensures var w := Run(START, events);
            var after := Step(w, e);
            var reply := Answer(w, e);
            && (reply.Decided? ==>
                  Reports(after, e.now, reply.decision.attemptsInWindow, reply.decision.retryAfterSeconds))
            && (reply.Observed? ==>
                  && Reports(after, e.now, reply.attemptsInWindow, reply.retryAfterSeconds)
                  && (reply.quarantined <==> w.cell.memory.quarantineUntil > e.now)
                  && reply.lastReason == w.cell.memory.lastReason)
            && (reply.Decided? <==> e.Admit? && reply != Raised)
            && (reply.Observed? <==> e.Snapshot?)
  {
    RunKeepsInv(events);
    hide Inv, Run, Reports, Apply;
    var w := Run(START, events);
    if e.Admit? {
      RequestReports(w, e);
    } else {
      SnapshotReports(w, e);
    }
  }

  lemma WaitIs(state: Persistent, now: real)
    ensures RetryAfter(state, now) == 0 <==> state.quarantineUntil <= now
    ensures RetryAfter(state, now) > 0 ==>
              state.quarantineUntil - now <= RetryAfter(state, now) as real < state.quarantineUntil - now + 1.0
  {
  }

  lemma RequestReports(w: World, e: Event)
    requires Inv(w) && e.Admit? && e.now >= w.clock
    ensures var reply := Answer(w, e);
            && (reply.Decided? ==>
                  Reports(Step(w, e), e.now, reply.decision.attemptsInWindow, reply.decision.retryAfterSeconds))
            && (reply.Decided? || reply == Raised)
  {
    LiveCount(w, e.now);
    LiveAfter(w, e);
    hide Inv, After, Pruned, RetryAfter;
    WaitIs(Step(w, e).cell.memory, e.now);
  }

  lemma SnapshotReports(w: World, e: Event)
    requires Inv(w) && !e.Admit? && !e.Restart? && e.now >= w.clock
    ensures var reply := Answer(w, e);
            && !reply.Decided? && (reply.Observed? <==> e.Snapshot?)
            && (reply.Observed? ==>
                  && Reports(Step(w, e), e.now, reply.attemptsInWindow, reply.retryAfterSeconds)
                  && (reply.quarantined <==> w.cell.memory.quarantineUntil > e.now)
                  && reply.lastReason == w.cell.memory.lastReason)
  {
    RecentPrunes(w.cell.memory.attempts, w.admitted, w.clock, e.now);
    hide After, Spaced, Ascending, Recent, NotLater, RetryAfter;
    WaitIs(Step(w, e).cell.memory, e.now);
  }

  /** An admitted login is live at once. */
  lemma LiveAfter(w: World, e: Event)
    requires Inv(w) && !e.Restart? && e.now >= w.clock
    ensures After(w.admitted + [e.now], e.now - 900.0) == After(w.admitted, e.now - 900.0) + [e.now]
  {
    AfterOfAppend(w.admitted, e.now, e.now - 900.0);
  }

  /** The reason of the latest saved failure; none after a saved success; the limit when it was reached. */
  function LatestReason(events: seq<Event>): Option<string> {
    if events == [] then None
    else
      var before, e := events[..|events| - 1], events[|events| - 1];
      if e.Failure? && e.saves then Some(e.reason)
      else if e.Success? && e.saves then None
      else if e.Admit? && e.saves && LimitReached(Run(START, before), e.now) then
        Some("IQOPTION_HTTP_LOGIN_LIMIT_REACHED")
      else LatestReason(before)
  }

  predicate LimitReached(w: World, now: real) {
    w.cell.memory.quarantineUntil <= now && |After(w.admitted, now - 900.0)| >= 3
  }

  lemma {:induction false} ReasonIsTheLatest(events: seq<Event>)
    requires Legal(START, events)
    ensures Run(START, events).cell.memory.lastReason == LatestReason(events)
  {
    if events != [] {
      var before, e := events[..|events| - 1], events[|events| - 1];
      ReasonIsTheLatest(before);
      RunKeepsInv(before);
      ReasonMoves(Run(START, before), e);
    }
  }

  lemma ReasonMoves(w: World, e: Event)
    requires Inv(w) && (e.Restart? || e.now >= w.clock)
    ensures var after := Step(w, e).cell.memory.lastReason;
            if e.Failure? && e.saves then after == Some(e.reason)
            else if e.Success? && e.saves then after == None
            else if e.Admit? && e.saves && LimitReached(w, e.now)
            then after == Some("IQOPTION_HTTP_LOGIN_LIMIT_REACHED")
            else after == w.cell.memory.lastReason
  {
    if e.Restart? {
      hide After, Spaced, Ascending, Recent, NotLater, Pruned;
    } else {
      LiveCount(w, e.now);
      hide Inv, After, Apply, Pruned;
      CellReason(w.cell, e);
    }
  }

  lemma LiveCount(w: World, now: real)
    requires Inv(w) && now >= w.clock
    ensures |Pruned(w.cell.memory, now).attempts| == |After(w.admitted, now - 900.0)| && now >= 0.0
  {
    RecentPrunes(w.cell.memory.attempts, w.admitted, w.clock, now);
    hide After;
  }

  lemma CellReason(c: Cell, e: Event)
    requires !e.Restart? && e.now >= 0.0
    ensures var after := Apply(c, e).0.memory.lastReason;
            var full := c.memory.quarantineUntil <= e.now && |Pruned(c.memory, e.now).attempts| >= 3;
            if e.Failure? && e.saves then after == Some(e.reason)
            else if e.Success? && e.saves then after == None
            else if e.Admit? && e.saves && full then after == Some("IQOPTION_HTTP_LOGIN_LIMIT_REACHED")
            else after == c.memory.lastReason
  {
    QuarantinePruned(c.memory, e.now);
    hide Pruned, RetryAfter;
  }
}
