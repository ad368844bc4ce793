/** The verification keys the auth server keeps between processes (apps/auth_agent/server.py): each
    process signs leases with a key of its own, one signed lease is stored, and the registry holds
    at most sixteen keys. */
module KeyRegistry {
  const MAX_VERIFICATION_KEYS: nat := 16

  /** A lease on disk: absent, not parseable, or naming a key id and signed by that key. */
  datatype StoredLease = NoLease | Unreadable | Lease(keyId: string, signedBy: string)

  datatype Vault = Vault(registry: map<string, string>, lease: StoredLease)

  /** `trusted` is what the process's lease verifier was built with. */
  datatype Process = Down | Up(keyId: string, key: string, trusted: map<string, string>)

  predicate Verifies(keys: map<string, string>, lease: StoredLease) {
    lease.Lease? && lease.keyId in keys && keys[lease.keyId] == lease.signedBy
  }

  // ---------------------------------------------------------------- starting a process

  /** The registry without every key no stored lease can need. */
  function Pruned(v: Vault): map<string, string> {
    map id | id in v.registry && v.lease.Lease? && id == v.lease.keyId :: v.registry[id]
  }

  predicate StartRaises(v: Vault, keyId: string) {
    || |v.registry| > MAX_VERIFICATION_KEYS
    || (keyId !in Pruned(v) && |Pruned(v)| >= MAX_VERIFICATION_KEYS)
  }

  class AuthAgentServer {
    var vault: Vault
    var process: Process

    constructor (vault: Vault)
      ensures this.vault == vault && process == Down
    {
      this.vault := vault;
      process := Down;
    }

    method Start(keyId: string, key: string) returns (started: bool)
      modifies this
      ensures started == !StartRaises(old(vault), keyId)
      ensures (vault, process) == AfterStart(old(vault), old(process), keyId, key)
    {
      if |vault.registry| > MAX_VERIFICATION_KEYS {
        return false;
      }
      var keys := Pruned(vault);
      if keyId !in keys && |keys| >= MAX_VERIFICATION_KEYS {
        return false;
      }
      keys := keys[keyId := key];
      vault := vault.(registry := keys);
      process := Up(keyId, key, keys);
      return true;
    }

    /** `_obtain_and_store_lease`: the service signs, the verifier checks, the vault keeps. */
    method StoreIssuedLease() returns (stored: bool)
      modifies this
      ensures stored == (&& old(process).Up?
                         && Verifies(old(process).trusted, Lease(old(process).keyId, old(process).key)))
      ensures process == old(process)
      ensures vault == if stored then old(vault).(lease := Lease(process.keyId, process.key)) else old(vault)
    {
      if process.Down? {
        return false;
      }
      var signed := Lease(process.keyId, process.key);
      if !Verifies(process.trusted, signed) {
        return false;
      }
      vault := vault.(lease := signed);
      return true;
    }
  }

  function AfterStart(v: Vault, p: Process, keyId: string, key: string): (Vault, Process) {
    if StartRaises(v, keyId) then (v, p)
    else
      var keys := Pruned(v)[keyId := key];
      (v.(registry := keys), Up(keyId, key, keys))
  }

  // ---------------------------------------------------------------- whole runs

  datatype Step = Starts(keyId: string, key: string) | StoresLease | LosesLease | GarblesLease

  datatype State = State(vault: Vault, process: Process, raised: bool)

  function Next(s: State, step: Step): State {
    match step
    case Starts(keyId, key) =>
      var (vault, process) := AfterStart(s.vault, s.process, keyId, key);
      State(vault, process, s.raised || StartRaises(s.vault, keyId))
    case StoresLease =>
      if s.process.Up? && Verifies(s.process.trusted, Lease(s.process.keyId, s.process.key))
      then s.(vault := s.vault.(lease := Lease(s.process.keyId, s.process.key))) else s
    case LosesLease => s.(vault := s.vault.(lease := NoLease))
    case GarblesLease => s.(vault := s.vault.(lease := Unreadable))
  }

  function Run(steps: seq<Step>): State {
    if steps == [] then State(Vault(map[], NoLease), Down, false)
    else Next(Run(steps[..|steps| - 1]), steps[|steps| - 1])
  }

  /** Every process draws a key id of its own. */
  predicate FreshIds(steps: seq<Step>) {
    forall i, j :: 0 <= i < j < |steps| && steps[i].Starts? && steps[j].Starts? ==> steps[i].keyId != steps[j].keyId
  }

  predicate Started(steps: seq<Step>, keyId: string) {
    exists i :: 0 <= i < |steps| && steps[i].Starts? && steps[i].keyId == keyId
  }

  ghost predicate Inv(s: State, steps: seq<Step>) {
    && !s.raised
    && |s.vault.registry| <= 2
    && (s.vault.lease.Lease? ==> Verifies(s.vault.registry, s.vault.lease) && Started(steps, s.vault.lease.keyId))
    && (s.process.Up? ==>
          && s.process.trusted == s.vault.registry
          && s.process.keyId in s.process.trusted && s.process.trusted[s.process.keyId] == s.process.key
          && Started(steps, s.process.keyId))
  }

  lemma PrunedIsSmall(v: Vault)
    ensures |Pruned(v)| <= 1
    ensures v.lease.Lease? ==> Pruned(v).Keys <= {v.lease.keyId}
  {
    if v.lease.Lease? {
      var keys := Pruned(v).Keys;
      assert keys <= {v.lease.keyId};
      AtMostOne(keys, v.lease.keyId);
    } else {
      assert Pruned(v) == map[];
    }
  }

  lemma AtMostOne(keys: set<string>, id: string)
    requires keys <= {id}
    ensures |keys| <= 1
  {
    if id in keys {
      assert keys == {id};
    } else {
      assert keys == {};
    }
  }

  lemma OneMoreKey(keys: map<string, string>, id: string, key: string)
    ensures |keys[id := key]| <= |keys| + 1
  {
  }

  /** Pruning never costs the stored lease its key. */
  lemma PruningKeepsTheLease(v: Vault)
    ensures Verifies(Pruned(v), v.lease) <==> Verifies(v.registry, v.lease)
  {
  }

  lemma StartedStays(steps: seq<Step>, keyId: string)
    requires steps != [] && Started(steps[..|steps| - 1], keyId)
    ensures Started(steps, keyId)
  {
  }

  lemma StartKeepsInv(s: State, steps: seq<Step>)
    requires steps != [] && FreshIds(steps) && steps[|steps| - 1].Starts?
    requires Inv(s, steps[..|steps| - 1])
    ensures Inv(Next(s, steps[|steps| - 1]), steps)
  {
    hide Pruned;
    var step := steps[|steps| - 1];
    PrunedIsSmall(s.vault);
    PruningKeepsTheLease(s.vault);
    OneMoreKey(Pruned(s.vault), step.keyId, step.key);
    assert Started(steps, step.keyId);
    if s.vault.lease.Lease? {
      StartedStays(steps, s.vault.lease.keyId);
      assert s.vault.lease.keyId != step.keyId;
    }
  }

  lemma OtherKeepsInv(s: State, steps: seq<Step>)
    requires steps != [] && !steps[|steps| - 1].Starts?
    requires Inv(s, steps[..|steps| - 1])
    ensures Inv(Next(s, steps[|steps| - 1]), steps)
  {
  }

  lemma {:induction false} RunKeepsInv(steps: seq<Step>)
    requires FreshIds(steps)
    ensures Inv(Run(steps), steps)
  {
    if steps != [] {
      var before := steps[..|steps| - 1];
      assert FreshIds(before);
      RunKeepsInv(before);
      hide Inv, Next, FreshIds;
      if steps[|steps| - 1].Starts? {
        StartKeepsInv(Run(before), steps);
      } else {
        OtherKeepsInv(Run(before), steps);
      }
    }
  }

  // ---------------------------------------------------------------- what the registry promises

  /** However often the application restarts: no start is ever refused for a full registry, which
      never holds more than two keys, and the lease on disk, if it can be read at all, verifies with
      the registry and with the running process. */
  lemma {:induction false} RestartsNeverRunOut(steps: seq<Step>, keyId: string)
    requires FreshIds(steps)
    ensures var s := Run(steps);
            && !s.raised && !StartRaises(s.vault, keyId) && |s.vault.registry| <= 2
            && (s.vault.lease.Lease? ==>
                  && Verifies(s.vault.registry, s.vault.lease)
                  && (s.process.Up? ==> Verifies(s.process.trusted, s.vault.lease)))
  {
    RunKeepsInv(steps);
    hide Run, Pruned;
    PrunedIsSmall(Run(steps).vault);
  }

  /** In every run a process that has started trusts its own key, so that the lease it issues next is stored,
      and stays readable through every later start until it is lost, garbled or replaced. */
  lemma {:induction false} IssuedLeaseSurvives(steps: seq<Step>, later: seq<Step>)
    requires FreshIds(steps + [StoresLease] + later) && Run(steps).process.Up?
    requires forall i :: 0 <= i < |later| ==> later[i].Starts?
    ensures var p, s := Run(steps).process, Run(steps + [StoresLease] + later);
            && s.vault.lease == Lease(p.keyId, p.key)
            && Verifies(s.vault.registry, s.vault.lease)
            && s.process.Up? && Verifies(s.process.trusted, s.vault.lease)
  {
    var all := steps + [StoresLease] + later;
    hide Pruned, StartRaises;
    RunKeepsInv(all);
    if later == [] {
      assert all[..|all| - 1] == steps && all[|all| - 1] == StoresLease;
      assert FreshIds(steps);
      RunKeepsInv(steps);
    } else {
      var before := later[..|later| - 1];
      assert all[..|all| - 1] == steps + [StoresLease] + before && all[|all| - 1] == later[|later| - 1];
      assert FreshIds(steps + [StoresLease] + before);
      IssuedLeaseSurvives(steps, before);
    }
  }
}
