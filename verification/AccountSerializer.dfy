/** One critical section per broker account (apps/core/coordinator.py, AccountCommandSerializer):
    locks are created on demand in a registry and never removed. */
module AccountSerializer {
  import H = HealthGate

  type Scope = (string, string)
  type Lock = nat
  type Thread = nat

  /** `created` locks exist so far, numbered from zero. */
  class Serializer {
    var locks: map<Scope, Lock>
    var created: nat

    constructor ()
      ensures locks == map[] && created == 0
    {
      locks, created := map[], 0;
    }

    /** `setdefault` under the registry lock. */
    method LockFor(broker: string, account: string) returns (lock: Lock)
      modifies this
      ensures (locks, created) == Registered(old(locks), old(created), H.Key(broker, account))
      ensures H.Key(broker, account) in locks && lock == locks[H.Key(broker, account)]
    {
      var key := H.Key(broker, account);
      if key !in locks {
        locks := locks[key := created];
        created := created + 1;
      }
      lock := locks[key];
    }
  }

  function Registered(locks: map<Scope, Lock>, created: nat, key: Scope): (map<Scope, Lock>, nat) {
    if key in locks then (locks, created) else (locks[key := created], created + 1)
  }

  // ---------------------------------------------------------------- threads

  datatype Place = Outside | Waiting(key: Scope, lock: Lock) | Inside(key: Scope, lock: Lock)

  datatype State = State(locks: map<Scope, Lock>, created: nat, holders: map<Lock, Thread>, threads: map<Thread, Place>)

  datatype Step =
    | Asks(thread: Thread, broker: string, account: string)
    | Acquires(thread: Thread)
    | Leaves(thread: Thread)

  const INITIAL := State(map[], 0, map[], map[])

  function At(s: State, t: Thread): Place {
    if t in s.threads then s.threads[t] else Outside
  }

  predicate CanAcquire(s: State, t: Thread) {
    At(s, t).Waiting? && At(s, t).lock !in s.holders
  }

  /** A step that is not possible now leaves the state alone. */
  function Next(s: State, step: Step): State {
    var place := At(s, step.thread);
    match step
    case Asks(t, broker, account) =>
      if !place.Outside? then s
      else
        var key := H.Key(broker, account);
        var (locks, created) := Registered(s.locks, s.created, key);
        State(locks, created, s.holders, s.threads[t := Waiting(key, locks[key])])
    case Acquires(t) =>
      if !CanAcquire(s, t) then s
      else s.(holders := s.holders[place.lock := t], threads := s.threads[t := Inside(place.key, place.lock)])
    case Leaves(t) =>
      if !place.Inside? then s
      else s.(holders := s.holders - {place.lock}, threads := s.threads[t := Outside])
  }

  function Run(steps: seq<Step>): State {
    if steps == [] then INITIAL else Next(Run(steps[..|steps| - 1]), steps[|steps| - 1])
  }

  ghost predicate OwnLocks(s: State) {
    && (forall k :: k in s.locks ==> s.locks[k] < s.created)
    && (forall j, k :: j in s.locks && k in s.locks && j != k ==> s.locks[j] != s.locks[k])
  }

  ghost predicate Placed(s: State) {
    && (forall t :: !At(s, t).Outside? ==> At(s, t).key in s.locks && At(s, t).lock == s.locks[At(s, t).key])
    && (forall t :: At(s, t).Inside? ==> At(s, t).lock in s.holders && s.holders[At(s, t).lock] == t)
    && (forall l :: l in s.holders ==> At(s, s.holders[l]).Inside? && At(s, s.holders[l]).lock == l)
  }

  /** Only the thread that steps changes place. */
  lemma OthersStay(s: State, step: Step, t: Thread)
    ensures t != step.thread ==> At(Next(s, step), t) == At(s, t)
  {
    hide H.Upper;
  }

  lemma AskingKeepsInv(s: State, step: Step)
    requires OwnLocks(s) && Placed(s) && step.Asks?
    ensures OwnLocks(Next(s, step)) && Placed(Next(s, step))
  {
    hide H.Key;
    var after := Next(s, step);
    forall t ensures t != step.thread ==> At(after, t) == At(s, t) {
      OthersStay(s, step, t);
    }
    assert At(s, step.thread).Outside? ==> At(after, step.thread).Waiting?;
    hide At;
  }

  lemma AcquiringKeepsInv(s: State, step: Step)
    requires OwnLocks(s) && Placed(s) && step.Acquires?
    ensures OwnLocks(Next(s, step)) && Placed(Next(s, step))
  {
    var after := Next(s, step);
    forall t ensures t != step.thread ==> At(after, t) == At(s, t) {
      OthersStay(s, step, t);
    }
    if CanAcquire(s, step.thread) {
      var place := At(s, step.thread);
      assert At(after, step.thread) == Inside(place.key, place.lock);
      hide At, OwnLocks;
    }
  }

  lemma LeavingKeepsInv(s: State, step: Step)
    requires OwnLocks(s) && Placed(s) && step.Leaves?
    ensures OwnLocks(Next(s, step)) && Placed(Next(s, step))
  {
    var after := Next(s, step);
    forall t ensures t != step.thread ==> At(after, t) == At(s, t) {
      OthersStay(s, step, t);
    }
    if At(s, step.thread).Inside? {
      assert At(after, step.thread) == Outside;
      hide At, OwnLocks;
    }
  }

  lemma NextKeepsInv(s: State, step: Step)
    requires OwnLocks(s) && Placed(s)
    ensures OwnLocks(Next(s, step)) && Placed(Next(s, step))
  {
    hide Next, OwnLocks, Placed;
    match step
    case Asks(_, _, _) => AskingKeepsInv(s, step);
    case Acquires(_) => AcquiringKeepsInv(s, step);
    case Leaves(_) => LeavingKeepsInv(s, step);
  }

  lemma {:induction false} RunKeepsInv(steps: seq<Step>)
    ensures OwnLocks(Run(steps)) && Placed(Run(steps))
  {
    hide Next, OwnLocks, Placed;
    if steps == [] {
      InitialIsFine();
    } else {
      RunKeepsInv(steps[..|steps| - 1]);
      NextKeepsInv(Run(steps[..|steps| - 1]), steps[|steps| - 1]);
    }
  }

  lemma InitialIsFine()
    ensures OwnLocks(INITIAL) && Placed(INITIAL)
  {
  }

  // ---------------------------------------------------------------- what the serializer promises

  /** In every interleaving: two threads are never inside the section of one account at once, however
      its broker is spelled; */
  lemma {:induction false} OneThreadPerAccount(steps: seq<Step>, t: Thread, u: Thread)
    requires At(Run(steps), t).Inside? && At(Run(steps), u).Inside?
    requires At(Run(steps), t).key == At(Run(steps), u).key
    ensures t == u
  {
    RunKeepsInv(steps);
    hide Run;
  }

  /** and a thread waits only for another one inside its own account's section: accounts never hold
      each other up. */
  lemma {:induction false} WaitsOnlyForItsAccount(steps: seq<Step>, t: Thread) returns (u: Thread)
    requires At(Run(steps), t).Waiting? && !CanAcquire(Run(steps), t)
    ensures u != t && At(Run(steps), u).Inside? && At(Run(steps), u).key == At(Run(steps), t).key
  {
    RunKeepsInv(steps);
    hide Run;
    u := Run(steps).holders[At(Run(steps), t).lock];
  }
}
