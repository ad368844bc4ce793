/** The auth agent (apps/auth_agent/agent.py) against the identity service: the refresh token kept
    in the vault stays in step with rotation, whatever happens between the agent's calls. */
module AuthAgent {
  import opened Optional
  import opened IdentityService

  /** Where the agent is inside `complete_login` or `renew_silently`. */
  datatype Pc =
    | Idle
    | Holding(tokens: Tokens)     // the service has answered, nothing is stored yet
    | Leasing(access: string)     // `_store_session` is done; device and lease calls follow

  datatype System = System(world: World, vault: Option<string>, pc: Pc)

  const POWERED_ON := System(START, None, Idle)

  /** Agent steps are single service calls or the two vault writes of `_store_session`; `Other` is
      any call of anybody else, an availability change or a device revocation included. */
  datatype Step =
    | AgentLogin(event: Event)
    | AgentRenew(event: Event)
    | AgentStore
    | AgentDeviceCall(event: Event)
    | AgentReturn
    | Other(event: Event)

  predicate IsDeviceCall(call: Call) {
    call.RegisterDevice? || call.CreateDeviceChallenge? || call.IssueLease?
  }

  function After(sys: System, e: Event): System {
    var reply := Answer(sys.world, e);
    System(IdentityService.Step(sys.world, e), sys.vault, if reply.Issued? then Holding(reply.tokens) else Idle)
  }

  /** A step the agent cannot take at this point leaves the system alone. */
  function Next(sys: System, step: Step): System {
    match step
    case AgentLogin(e) => if sys.pc.Idle? && e.call.CompleteLogin? then After(sys, e) else sys
    case AgentRenew(e) =>
      if sys.pc.Idle? && sys.vault.Some? && e.call == RefreshSession(sys.vault.value) then After(sys, e) else sys
    case AgentStore =>
      if sys.pc.Holding? then System(sys.world, Some(sys.pc.tokens.refresh), Leasing(sys.pc.tokens.access)) else sys
    case AgentDeviceCall(e) =>
      if sys.pc.Leasing? && IsDeviceCall(e.call)
      then sys.(world := IdentityService.Step(sys.world, e),
                pc := if Answer(sys.world, e).Failed? then Idle else sys.pc)
      else sys
    case AgentReturn => if sys.pc.Leasing? then sys.(pc := Idle) else sys
    case Other(e) => sys.(world := IdentityService.Step(sys.world, e))
  }

  function Run(steps: seq<Step>): System {
    if steps == [] then POWERED_ON else Next(Run(steps[..|steps| - 1]), steps[|steps| - 1])
  }

  /** The token the agent will present next time, once it has stored what it holds. */
  function Kept(sys: System): Option<string> {
    if sys.pc.Holding? then Some(sys.pc.tokens.refresh) else sys.vault
  }

  function FamilyOf(l: Ledger, token: string): Option<string> {
    var digest := Sha256(token);
    if digest in l.live then Some(l.live[digest])
    else if digest in l.used then Some(l.used[digest])
    else None
  }

  /** Nobody else knows a token of the family the agent is using, or is about to abandon. */
  predicate KeepsAway(sys: System, step: Step) {
    step.Other? && step.event.call.RefreshSession? ==>
      var l := sys.world.service.ledger;
      var family := FamilyOf(l, step.event.call.token);
      && (Kept(sys).Some? ==> family.None? || family != FamilyOf(l, Kept(sys).value))
  }

  /** Generated values are fresh, and others keep away from the agent's tokens. */
  predicate Legal(steps: seq<Step>) {
    steps == [] ||
    (var before := Run(steps[..|steps| - 1]);
     var step := steps[|steps| - 1];
     && Legal(steps[..|steps| - 1])
     && KeepsAway(before, step)
     && (!step.AgentStore? && !step.AgentReturn? ==> Fresh(before.world, step.event)))
  }

  // ---------------------------------------------------------------- in step

  /** The agent's token is the active token of a family that is not revoked. */
  ghost predicate InStep(sys: System) {
    Kept(sys).Some? ==> Current(sys.world.service.ledger, Sha256(Kept(sys).value))
  }

  ghost predicate Inv(sys: System) {
    TokenInv(sys.world) && InStep(sys)
  }

  /** A call that does not present a token of the family leaves a current token current. */
  lemma CurrentSurvives(w: World, e: Event, token: string)
    requires TokenInv(w) && Fresh(w, e) && Current(w.service.ledger, Sha256(token))
    requires e.call.RefreshSession? ==>
               FamilyOf(w.service.ledger, e.call.token) != FamilyOf(w.service.ledger, token)
    ensures Current(IdentityService.Step(w, e).service.ledger, Sha256(token))
  {
    hide Apply;
    LedgerMoves(w.service, e);
  }

  /** Tokens just issued are the active ones of their family. */
  lemma IssuedIsCurrent(w: World, e: Event)
    requires TokenInv(w) && Fresh(w, e) && (e.call.CompleteLogin? || e.call.RefreshSession?)
    ensures Answer(w, e).Issued? ==>
              && Answer(w, e).tokens.refresh == e.generated.refresh
              && Current(IdentityService.Step(w, e).service.ledger, Sha256(e.generated.refresh))
  {
  }

  /** Presenting a current token never fails for any reason but unavailability. */
  lemma CurrentIsAccepted(w: World, e: Event)
    requires e.call.RefreshSession? && Current(w.service.ledger, Sha256(e.call.token))
    ensures Answer(w, e).Issued? || Answer(w, e) == Failed(Unavailable)
    ensures !Answer(w, e).Issued? ==> IdentityService.Step(w, e).service.ledger == w.service.ledger
  {
  }

  lemma NextKeepsInv(sys: System, step: Step)
    requires Inv(sys) && KeepsAway(sys, step)
    requires !step.AgentStore? && !step.AgentReturn? ==> Fresh(sys.world, step.event)
    ensures Inv(Next(sys, step))
  {
    if !step.AgentStore? && !step.AgentReturn? {
      var e := step.event;
      StepKeepsTokens(sys.world, e);
      hide TokenInv, Apply, Current, IdentityService.Step, Answer;
      if step.AgentLogin? && e.call.CompleteLogin? {
        IssuedIsCurrent(sys.world, e);
      }
      if step.AgentRenew? && sys.vault.Some? && sys.pc.Idle? && e.call == RefreshSession(sys.vault.value) {
        IssuedIsCurrent(sys.world, e);
        CurrentIsAccepted(sys.world, e);
        if !Answer(sys.world, e).Issued? {
          LedgerDecides(sys.world, e, sys.vault.value);
        }
      } else if Kept(sys).Some? && !e.call.RefreshSession? {
        CurrentSurvives(sys.world, e, Kept(sys).value);
      } else if Kept(sys).Some? && step.Other? {
        FamilyIsKnown(sys.world.service.ledger, Kept(sys).value);
        CurrentSurvives(sys.world, e, Kept(sys).value);
      }
    }
  }

  lemma LedgerDecides(w: World, e: Event, token: string)
    requires IdentityService.Step(w, e).service.ledger == w.service.ledger
    requires Current(w.service.ledger, Sha256(token))
    ensures Current(IdentityService.Step(w, e).service.ledger, Sha256(token))
  {
  }

  lemma FamilyIsKnown(l: Ledger, token: string)
    requires Current(l, Sha256(token))
    ensures FamilyOf(l, token).Some?
  {
  }

  lemma {:induction false} RunKeepsInv(steps: seq<Step>)
    requires Legal(steps)
    ensures Inv(Run(steps))
  {
    if steps != [] {
      RunKeepsInv(steps[..|steps| - 1]);
      NextKeepsInv(Run(steps[..|steps| - 1]), steps[|steps| - 1]);
    }
  }

  /** In every interleaving of logins, renewals (also ones that fail after the rotation), outages,
      revocations and other clients: whenever the agent is at rest its vault holds the active token
      of an unrevoked family; so a renewal either succeeds or finds the service unavailable, and
      never revokes a family. */
  lemma {:induction false} AgentStaysInStep(steps: seq<Step>, e: Event)
    requires Legal(steps) && Run(steps).pc.Idle? && Run(steps).vault.Some?
    requires e.call == RefreshSession(Run(steps).vault.value)
    ensures var sys := Run(steps);
            && Current(sys.world.service.ledger, Sha256(sys.vault.value))
            && (Answer(sys.world, e).Issued? || Answer(sys.world, e) == Failed(Unavailable))
            && (Answer(sys.world, e).Issued? <==> sys.world.service.available)
            && forall f :: f in sys.world.service.ledger.families && !IsRevoked(sys.world.service.ledger, f) ==>
                 !IsRevoked(IdentityService.Step(sys.world, e).service.ledger, f)
  {
    RunKeepsInv(steps);
    hide Run, Legal, TokenInv;
  }

  // ---------------------------------------------------------------- when others do not keep away

  /** Exactly what throws an agent at rest out of step: somebody else presents, while the service
      answers, a token of the agent's family. */
  lemma OnlyTheftBreaksStep(sys: System, e: Event)
    requires Inv(sys) && sys.pc.Idle? && sys.vault.Some? && Fresh(sys.world, e) && e.call.RefreshSession?
    ensures InStep(Next(sys, Other(e))) <==>
              !(sys.world.service.available
                && FamilyOf(sys.world.service.ledger, e.call.token)
                   == FamilyOf(sys.world.service.ledger, sys.vault.value))
  {
    hide Apply;
    LedgerMoves(sys.world.service, e);
  }

  /** A stolen vault token, once used by the thief, is found out at the agent's next renewal: the
      renewal is answered as reuse and the thief's new token is dead as well. */
  lemma TheftIsFoundOut(sys: System, theft: Event, renewal: Event)
    requires Inv(sys) && sys.pc.Idle? && sys.vault.Some? && sys.world.service.available
    requires theft.call == renewal.call == RefreshSession(sys.vault.value)
    requires Fresh(sys.world, theft) && Fresh(IdentityService.Step(sys.world, theft), renewal)
    ensures var stolen := IdentityService.Step(sys.world, theft);
            var found := IdentityService.Step(stolen, renewal);
            && Answer(sys.world, theft).Issued?
            && Answer(stolen, renewal) == Failed(TokenReuse)
            && !Current(found.service.ledger, Sha256(Answer(sys.world, theft).tokens.refresh))
  {
  }

  // ---------------------------------------------------------------- the agent object

  datatype AgentState = SignedOut | Authorized | OfflineAuthorized | Blocked | ReauthRequired

  /** What may happen between two of the agent's calls: an outage begins or ends, the device is revoked. */
  datatype Weather = Weather(available: bool, revokeDevice: bool)

  /** How far a session got: refused at once, rotated but left without a lease, or complete; `Escapes`
      when a `ValueError` leaves the agent, which only the lease verifier or a lease for somebody else
      can cause. */
  datatype Outcome = NoSession | Refused(code: ErrorCode) | NoLease(code: ErrorCode) | Escapes | Complete(lease: Lease)

  /** What verifier and service say of the lease held so far, and the verifier of the new one. */
  datatype Checks = Checks(heldVerifies: bool, heldRevoked: bool, newVerifies: bool)

  lemma RotationStaysCurrent(l: Ledger, digest: Digest, newDigest: Digest)
    requires Rotating(l) && Current(l, digest) && newDigest !in l.live && newDigest !in l.used
    ensures Rotating(Rotate(l, digest, newDigest)) && Current(Rotate(l, digest, newDigest), newDigest)
  {
  }

  /** The devices after what happened between two calls. */
  function Struck(devices: map<string, Device>, device: string, w: Weather): map<string, Device> {
    if w.revokeDevice && device in devices then devices[device := devices[device].(revoked := true)] else devices
  }

  /** The three device calls get a lease: the service is up at each, the device is new or this user's with
      this key and unrevoked when it is registered, and it is not revoked before the lease is issued. */
  predicate LeaseComes(devices: map<string, Device>, a: Asker, weather: seq<Weather>)
    requires |weather| == 3
  {
    && (forall i :: 0 <= i < 3 ==> weather[i].available)
    && (a.device in devices ==> devices[a.device] == Device(a.user, a.key, false) && !weather[0].revokeDevice)
    && !weather[1].revokeDevice && !weather[2].revokeDevice
  }

  /** Why no lease comes: the first thing that went wrong decides. */
  function WhyNoLease(devices: map<string, Device>, a: Asker, weather: seq<Weather>): ErrorCode
    requires |weather| == 3
  {
    if !weather[0].available then Unavailable
    else if a.device in devices && (devices[a.device].user != a.user || devices[a.device].publicKey != a.key)
    then DeviceInvalid
    else if a.device in devices && (devices[a.device].revoked || weather[0].revokeDevice) then DeviceRevoked
    else if !weather[1].available then Unavailable
    else if weather[1].revokeDevice then DeviceRevoked
    else if !weather[2].available then Unavailable
    else DeviceRevoked
  }

  predicate Speaks(s: Service, access: string, user: string, now: real) {
    Sha256(access) in s.access && s.access[Sha256(access)].user == user && now < s.access[Sha256(access)].expiresAt
  }

  /** The device calls, one by one. */
  lemma Registering(s: Service, access: string, device: string, key: string, speaker: Option<string>, now: real)
    requires if speaker.Some? then Speaks(s, access, speaker.value, now)
             else Sha256(access) in s.access ==> now >= s.access[Sha256(access)].expiresAt
    ensures DoRegisterDevice(s, access, device, Some(key), now) ==
            if !s.available then (s, Failed(Unavailable))
            else if speaker.None? then (s, Failed(TokenInvalid))
            else if device !in s.devices
            then (s.(devices := s.devices[device := Device(speaker.value, key, false)]), Ok)
            else if s.devices[device].user != speaker.value || s.devices[device].publicKey != key
            then (s, Failed(DeviceInvalid))
            else if s.devices[device].revoked then (s, Failed(DeviceRevoked))
            else (s, Ok)
  {
  }

  lemma Proving(s: Service, access: string, a: Asker, now: real, g: Generated)
    requires Speaks(s, access, a.user, now) && a.device in s.devices && s.devices[a.device].user == a.user
    ensures DoCreateChallenge(s, access, a.device, now, g) ==
            if !s.available then (s, Failed(Unavailable))
            else if s.devices[a.device].revoked then (s, Failed(DeviceRevoked))
            else
              var c := Challenge(a.user, a.device, g.nonce, now + 120.0, false);
              (s.(challenges := s.challenges[g.id := c]), Challenged(g.id, g.nonce))
  {
  }

  lemma Redeeming(s: Service, access: string, a: Asker, id: string, nonce: string, now: real, g: Generated)
    requires Speaks(s, access, a.user, now)
    requires a.device in s.devices && s.devices[a.device].user == a.user && s.devices[a.device].publicKey == a.key
    requires id in s.challenges && s.challenges[id] == Challenge(a.user, a.device, nonce, now + 120.0, false)
    ensures DoIssueLease(s, access, a.device, id, Signature(a.key, nonce), now, g).1 ==
            if !s.available then Failed(Unavailable)
            else if s.devices[a.device].revoked then Failed(DeviceRevoked)
            else Leased(Lease(g.id, a.user, a.device, id))
  {
  }

  /** Who asks for a lease: the device, its key and the user of the session. */
  datatype Asker = Asker(device: string, key: string, user: string)

  /** How a session ends once the tokens are rotated; `holds` says whether a lease is held. */
  function SessionEnds(
    devices: map<string, Device>, a: Asker, g: seq<Generated>, weather: seq<Weather>, checks: Checks, holds: bool)
    : Outcome
    requires |g| == 2 && |weather| == 4
  {
    var found := if holds then Struck(devices, a.device, weather[0]) else devices;
    if holds && !checks.heldVerifies then Escapes
    else if holds && !weather[0].available then NoLease(Unavailable)
    else if !LeaseComes(found, a, weather[1..]) then NoLease(WhyNoLease(found, a, weather[1..]))
    else if !checks.newVerifies then Escapes
    else Complete(Lease(g[1].id, a.user, a.device, g[0].id))
  }

  /** Everything a renewal needs besides a token: `weather[1]` is met only by an agent that holds a lease. */
  predicate Unhindered(
    devices: map<string, Device>, a: Asker, weather: seq<Weather>, checks: Checks, holds: bool)
    requires |weather| == 5
  {
    && (forall i :: 0 <= i < 5 && (i != 1 || holds) ==> weather[i].available)
    && (a.device in devices ==>
          && devices[a.device] == Device(a.user, a.key, false)
          && !weather[0].revokeDevice && !weather[2].revokeDevice && (holds ==> !weather[1].revokeDevice))
    && !weather[3].revokeDevice && !weather[4].revokeDevice
    && (holds ==> checks.heldVerifies) && checks.newVerifies
  }

  /** An unhindered renewal completes and a hindered one does not; only a verifier's refusal escapes. */
  lemma CompleteExactly(
    devices: map<string, Device>, a: Asker, g: seq<Generated>, weather: seq<Weather>, checks: Checks, holds: bool)
    requires |g| == 2 && |weather| == 5 && weather[0].available
    ensures var r := SessionEnds(Struck(devices, a.device, weather[0]), a, g, weather[1..], checks, holds);
            && (r.NoLease? || r.Escapes? || r.Complete?)
            && (r.Complete? <==> Unhindered(devices, a, weather, checks, holds))
            && (r.Complete? ==> r.lease.user == a.user && r.lease.device == a.device)
            && (r.Complete? && holds ==> checks.heldVerifies && weather[1].available)
            && (r.Escapes? ==> (holds && !checks.heldVerifies) || !checks.newVerifies)
  {
    var rest := weather[1..];
    assert rest[1..] == weather[2..];
  }

  lemma DownAtOnce(devices: map<string, Device>, a: Asker, weather: seq<Weather>, checks: Checks, holds: bool)
    requires |weather| == 5 && !weather[0].available
    ensures !Unhindered(devices, a, weather, checks, holds)
  {
  }

  class Agent {
    const service: FakeIdentityService
    const device: string
    const publicKey: string
    var refreshToken: Option<string>    // identity.refresh_token in the vault
    var userId: Option<string>          // identity.user_id in the vault
    var lease: Option<Lease>            // licensing.signed_lease in the vault
    var held: Option<Lease>             // the lease in memory
    var revokedLeases: set<string>
    var deviceRevoked: bool
    var state: AgentState

    constructor (service: FakeIdentityService, device: string, publicKey: string)
      ensures this.service == service && refreshToken.None? && lease.None? && held.None? && state == SignedOut
    {
      this.service, this.device, this.publicKey := service, device, publicKey;
      refreshToken, userId, lease, held := None, None, None, None;
      revokedLeases, deviceRevoked, state := {}, false, SignedOut;
    }

    ghost predicate Synchronized()
      reads this, service
    {
      && service.Valid()
      && Rotating(service.View().ledger)
      && (refreshToken.Some? ==> Current(service.View().ledger, Sha256(refreshToken.value)))
    }

    /** The user of the family the vault's token belongs to. */
    ghost function SessionUser(): string
      reads this, service
      requires Synchronized() && refreshToken.Some?
    {
      service.families[service.live[Sha256(refreshToken.value)]].user
    }

    ghost function Asks(): Asker
      reads this, service
      requires Synchronized() && refreshToken.Some?
    {
      Asker(device, publicKey, SessionUser())
    }

    method StoreSession(tokens: Tokens)
      modifies this`refreshToken, this`userId
      ensures refreshToken == Some(tokens.refresh) && userId == Some(tokens.user)
    {
      userId := Some(tokens.user);
      refreshToken := Some(tokens.refresh);
    }

    method Interfere(w: Weather)
      modifies service`available, service`devices
      ensures service.available == w.available
      ensures service.devices == Struck(old(service.devices), device, w)
    {
      service.available := w.available;
      if w.revokeDevice && device in service.devices {
        service.devices := service.devices[device := service.devices[device].(revoked := true)];
      }
    }

    /** The user an access token speaks for until it expires. */
    function Speaker(access: string, now: real): Option<string>
      reads service
    {
      if Sha256(access) in service.access && now < service.access[Sha256(access)].expiresAt
      then Some(service.access[Sha256(access)].user) else None
    }

    /** Registers the device, proves possession of its key and stores the lease, if every call answers, the
        lease is verified and it is for the agent's user; what stops it leaves the lease held so far. */
    method ObtainAndStoreLease(access: string, now: real, g: seq<Generated>, weather: seq<Weather>, verifies: bool)
      returns (r: Outcome)
      requires |g| == 2 && |weather| == 3
      modifies this`lease, this`held, service`available, service`devices, service`challenges
      ensures var speaker := old(Speaker(access, now));
              r == if speaker.None? then NoLease(if weather[0].available then TokenInvalid else Unavailable)
                   else
                     var a := Asker(device, publicKey, speaker.value);
                     if !LeaseComes(old(service.devices), a, weather)
                     then NoLease(WhyNoLease(old(service.devices), a, weather))
                     else if !verifies || userId != speaker then Escapes
                     else Complete(Lease(g[1].id, a.user, device, g[0].id))
      ensures if r.Complete? then lease == held == Some(r.lease) else lease == old(lease) && held == old(held)
    {
      hide LeaseComes, WhyNoLease;
      var answer := RequestLease(access, now, g, weather);
      if answer.Failed? {
        return NoLease(answer.code);
      }
      if !verifies || userId != Some(answer.lease.user) || answer.lease.device != device {
        return Escapes;
      }
      held := Some(answer.lease);
      lease := held;
      return Complete(answer.lease);
    }

    /** The three calls get the device's lease for the token's user, answering the challenge just made,
        exactly when nothing comes between; otherwise the first thing that did is the answer. */
    method RequestLease(access: string, now: real, g: seq<Generated>, weather: seq<Weather>) returns (answer: Reply)
      requires |g| == 2 && |weather| == 3
      modifies service`available, service`devices, service`challenges
      ensures var speaker := old(Speaker(access, now));
              answer == if speaker.None? then Failed(if weather[0].available then TokenInvalid else Unavailable)
                        else
                          var a := Asker(device, publicKey, speaker.value);
                          if LeaseComes(old(service.devices), a, weather)
                          then Leased(Lease(g[1].id, a.user, device, g[0].id))
                          else Failed(WhyNoLease(old(service.devices), a, weather))
    {
      Interfere(weather[0]);
      ghost var speaker := Speaker(access, now);
      Registering(service.View(), access, device, publicKey, speaker, now);
      hide DoRegisterDevice;
      answer := service.RegisterDevice(access, device, Some(publicKey), now);
      if answer.Failed? {
        return;
      }
      answer := ProvePossession(access, now, g, weather[1..], speaker.value);
    }

    /** The challenge and its answer, for a device that is registered by now. */
    method ProvePossession(access: string, now: real, g: seq<Generated>, weather: seq<Weather>, ghost user: string)
      returns (answer: Reply)
      requires |g| == 2 && |weather| == 2 && Speaker(access, now) == Some(user)
      requires device in service.devices && service.devices[device] == Device(user, publicKey, false)
      modifies service`available, service`devices, service`challenges
      ensures answer == if !weather[0].available then Failed(Unavailable)
                        else if weather[0].revokeDevice then Failed(DeviceRevoked)
                        else if !weather[1].available then Failed(Unavailable)
                        else if weather[1].revokeDevice then Failed(DeviceRevoked)
                        else Leased(Lease(g[1].id, user, device, g[0].id))
    {
      ghost var a := Asker(device, publicKey, user);
      Interfere(weather[0]);
      Proving(service.View(), access, a, now, g[0]);
      hide DoCreateChallenge, DoIssueLease;
      answer := service.CreateDeviceChallenge(access, device, now, g[0]);
      if answer.Failed? {
        return;
      }
      Interfere(weather[1]);
      Redeeming(service.View(), access, a, answer.id, answer.nonce, now, g[1]);
      answer := service.IssueLease(access, device, answer.id, Signature(publicKey, answer.nonce), now, g[1]);
    }

    /** The first half of a renewal: rotate, and store the new token before anything else. */
    method RotateSession(now: real, g: Generated, w: Weather) returns (answer: Reply)
      requires Synchronized() && refreshToken.Some?
      requires Sha256(g.refresh) !in service.live && Sha256(g.refresh) !in service.used
      modifies this`refreshToken, this`userId, service
      ensures Synchronized()
      ensures answer ==
              if w.available then Issued(Tokens(old(SessionUser()), g.access, g.refresh)) else Failed(Unavailable)
      ensures if w.available then refreshToken == Some(g.refresh) && userId == Some(old(SessionUser()))
              else refreshToken == old(refreshToken) && userId == old(userId)
      ensures w.available ==> Speaker(g.access, now) == Some(old(SessionUser()))
      ensures service.devices == Struck(old(service.devices), device, w)
    {
      hide Rotating;
      Interfere(w);
      ghost var l := service.View().ledger;
      answer := service.RefreshSession(refreshToken.value, now, g);
      if answer.Issued? {
        RotationStaysCurrent(l, Sha256(refreshToken.value), Sha256(g.refresh));
        StoreSession(answer.tokens);
      }
    }

    /** `_check_current_lease_revocation`, on the lease in memory if there is one. */
    method CheckLeaseRevocation(w: Weather, checks: Checks) returns (stopped: Option<Outcome>)
      modifies this`revokedLeases, service`available, service`devices
      ensures stopped == (if held.None? then None
                          else if !checks.heldVerifies then Some(Escapes)
                          else if !w.available then Some(NoLease(Unavailable))
                          else None)
      ensures service.devices == if held.Some? && checks.heldVerifies
                                 then Struck(old(service.devices), device, w) else old(service.devices)
      ensures revokedLeases == old(revokedLeases) + if held.Some? && stopped.None? && checks.heldRevoked
                                                    then {held.value.id} else {}
    {
      if held.None? {
        return None;
      }
      if !checks.heldVerifies {
        return Some(Escapes);
      }
      Interfere(w);
      if !service.available {
        return Some(NoLease(Unavailable));
      }
      if checks.heldRevoked {
        revokedLeases := revokedLeases + {held.value.id};
      }
      return None;
    }

    /** The second half: check the lease held so far, if there is one, then obtain a new one. */
    method LeaseSession(access: string, now: real, g: seq<Generated>, weather: seq<Weather>, checks: Checks)
      returns (r: Outcome)
      requires |g| == 2 && |weather| == 4 && userId.Some? && Speaker(access, now) == userId
      modifies this`lease, this`held, this`revokedLeases, service`available, service`devices, service`challenges
      ensures var a := Asker(device, publicKey, userId.value);
              r == SessionEnds(old(service.devices), a, g, weather, checks, old(held).Some?)
      ensures if r.Complete? then lease == held == Some(r.lease) else lease == old(lease) && held == old(held)
      ensures revokedLeases == old(revokedLeases) +
              if old(held).Some? && checks.heldVerifies && weather[0].available && checks.heldRevoked
              then {old(held).value.id} else {}
    {
      hide LeaseComes, WhyNoLease, Struck;
      var stopped := CheckLeaseRevocation(weather[0], checks);
      if stopped.Some? {
        return stopped.value;
      }
      r := ObtainAndStoreLease(access, now, g, weather[1..], checks.newVerifies);
    }

    /** `leaseAllows` is the verifier's decision on the lease the agent then has. */
    method Conclude(r: Outcome, leaseAllows: bool)
      requires r.Refused? || r.NoLease? || r.Complete?
      modifies this`state, this`deviceRevoked
      ensures state == if r.Complete? then (if leaseAllows then Authorized else Blocked)
                       else if r.code != Unavailable then ReauthRequired
                       else if leaseAllows then OfflineAuthorized else Blocked
      ensures deviceRevoked == (old(deviceRevoked) || (!r.Complete? && r.code == DeviceRevoked))
    {
      if r.Complete? {
        state := if leaseAllows then Authorized else Blocked;
      } else if r.code == Unavailable {
        state := if leaseAllows then OfflineAuthorized else Blocked;
      } else {
        deviceRevoked := deviceRevoked || r.code == DeviceRevoked;
        state := ReauthRequired;
      }
    }

    /** What a renewal attempts, from the rotation to the lease. */
    method RenewSession(now: real, g: seq<Generated>, weather: seq<Weather>, checks: Checks) returns (r: Outcome)
      requires Synchronized() && refreshToken.Some? && |g| == 3 && |weather| == 5
      requires Sha256(g[0].refresh) !in service.live && Sha256(g[0].refresh) !in service.used
      modifies this`refreshToken, this`userId, this`lease, this`held, this`revokedLeases, service
      ensures Synchronized()
      ensures r == if !weather[0].available then Refused(Unavailable)
                   else SessionEnds(Struck(old(service.devices), device, weather[0]), old(Asks()),
                                    g[1..], weather[1..], checks, old(held).Some?)
      ensures if weather[0].available then refreshToken == Some(g[0].refresh) && userId == Some(old(SessionUser()))
              else refreshToken == old(refreshToken) && userId == old(userId)
      ensures if r.Complete? then lease == held == Some(r.lease) else lease == old(lease) && held == old(held)
      ensures revokedLeases == old(revokedLeases) +
              if weather[0].available
                 && old(held).Some? && checks.heldVerifies && weather[1].available && checks.heldRevoked
              then {old(held).value.id} else {}
    {
      hide Rotating, Current, SessionEnds, Struck;
      var answer := RotateSession(now, g[0], weather[0]);
      if answer.Failed? {
        return Refused(answer.code);
      }
      r := LeaseSession(answer.tokens.access, now, g[1..], weather[1..], checks);
    }

    /** How a renewal ends, and when. It is refused exactly when the service is down at the first call. It is
        complete exactly when there is a token, every call finds the service up, the device is unknown or the
        session user's with this key and unrevoked, nobody revokes it meanwhile, and the verifier accepts the
        leases. Whatever stops it after the rotation, an escaping error included, the vault has the new token. */
    method RenewSilently(now: real, g: seq<Generated>, weather: seq<Weather>, checks: Checks, leaseAllows: bool)
      returns (r: Outcome)
      requires Synchronized() && |g| == 3 && |weather| == 5
      requires Sha256(g[0].refresh) !in service.live && Sha256(g[0].refresh) !in service.used
      modifies this, service
      ensures Synchronized()
      ensures r.NoSession? <==> old(refreshToken).None?
      ensures r.Refused? <==> old(refreshToken).Some? && !weather[0].available
      ensures r.Complete? <==>
              old(refreshToken).Some? && Unhindered(old(service.devices), old(Asks()), weather, checks, old(held).Some?)
      ensures r.NoSession? || r.Refused? ==> refreshToken == old(refreshToken)
      ensures revokedLeases == old(revokedLeases) +
              if !r.NoSession? && weather[0].available
                 && old(held).Some? && checks.heldVerifies && weather[1].available && checks.heldRevoked
              then {old(held).value.id} else {}
      ensures r.NoLease? || r.Escapes? || r.Complete? ==>
                && refreshToken == Some(g[0].refresh)
                && userId == Some(old(SessionUser()))
                && r == SessionEnds(Struck(old(service.devices), device, weather[0]), old(Asks()),
                                    g[1..], weather[1..], checks, old(held).Some?)
      ensures r.Complete? ==> r.lease.user == old(SessionUser()) && r.lease.device == device
      ensures if r.Complete? then lease == held == Some(r.lease) else lease == old(lease) && held == old(held)
      ensures r.Refused? ==> r.code == Unavailable
      ensures state == match r
                       case NoSession => ReauthRequired
                       case Escapes => old(state)
                       case Complete(_) => if leaseAllows then Authorized else Blocked
                       case Refused(code) => if leaseAllows then OfflineAuthorized else Blocked
                       case NoLease(code) =>
                         if code != Unavailable then ReauthRequired
                         else if leaseAllows then OfflineAuthorized else Blocked
      ensures deviceRevoked == (old(deviceRevoked) || r == NoLease(DeviceRevoked))
      ensures r.Complete? && old(held).Some? && checks.heldRevoked ==> old(held).value.id in revokedLeases
      ensures r.Escapes? ==> (old(held).Some? && !checks.heldVerifies) || !checks.newVerifies
    {
      hide Rotating, Current, Unhindered, SessionEnds, Struck;
      if refreshToken.None? {
        state := ReauthRequired;
        return NoSession;
      }
      if weather[0].available {
        CompleteExactly(service.devices, Asks(), g[1..], weather, checks, held.Some?);
      } else {
        DownAtOnce(service.devices, Asks(), weather, checks, held.Some?);
      }
      r := RenewSession(now, g, weather, checks);
      if !r.Escapes? {
        Conclude(r, leaseAllows);
      }
    }
  }
}
