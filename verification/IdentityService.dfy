/** The in-memory identity service (apps/auth_agent/fake_service.py): one-time logins, rotating
    refresh tokens with reuse detection (section 4.14.2 of RFC 9700, section 10.4 of RFC 6749),
    PKCE (section 4.6 of RFC 7636), and device-bound leases. Digests are injective; generated ids,
    tokens and nonces come in as arguments, and runs only use fresh ones. */
module IdentityService {
  import opened Optional

  datatype Digest = Sha256(text: string)

  datatype ErrorCode =
    | Unavailable | ChallengeInvalid | ChallengeExpired | OtpInvalid | PkceInvalid
    | TokenInvalid | TokenReuse | DeviceInvalid | DeviceRevoked | DeviceProofInvalid

  datatype Login = Login(email: string, pkceChallenge: string, otpDigest: Digest, expiresAt: real, consumed: bool)
  datatype Family = Family(user: string, active: Digest, revoked: bool)
  datatype Access = Access(user: string, expiresAt: real)
  datatype Device = Device(user: string, publicKey: string, revoked: bool)
  datatype Challenge = Challenge(user: string, device: string, nonce: string, expiresAt: real, consumed: bool)
  /** An Ed25519 signature: it verifies for exactly this key and message. */
  datatype Signature = Signature(publicKey: string, message: string)
  datatype Lease = Lease(id: string, user: string, device: string, challenge: string)
  datatype Tokens = Tokens(user: string, access: string, refresh: string)

  datatype Reply =
    | Failed(code: ErrorCode)
    | Ok
    | Issued(tokens: Tokens)
    | Challenged(id: string, nonce: string)
    | Leased(lease: Lease)

  /** Token families with `_refresh_to_family` (live) and `_used_refresh_to_family` (used). */
  datatype Ledger = Ledger(families: map<string, Family>, live: map<Digest, string>, used: map<Digest, string>)

  datatype Service = Service(
    available: bool,
    users: map<string, string>,
    logins: map<string, Login>,
    ledger: Ledger,
    access: map<Digest, Access>,
    devices: map<string, Device>,
    challenges: map<string, Challenge>)

  const EMPTY := Service(true, map[], map[], Ledger(map[], map[], map[]), map[], map[], map[])

  /** What `str.strip` removes, for the ASCII characters. */
  predicate IsBlank(text: string) {
    forall i :: 0 <= i < |text| ==> text[i] in {' ', '\t', '\n', '\r'}
  }

  /** The S256 transformation of a PKCE verifier. */
  function ChallengeFor(verifier: string): string {
    "S256:" + verifier
  }

  /** Everything the service would generate at random during one call. */
  datatype Generated = Generated(id: string, user: string, access: string, refresh: string, nonce: string, otp: string)

  datatype Call =
    | StartLogin(email: string, pkceChallenge: string)
    | CompleteLogin(challenge: string, otp: string, verifier: string)
    | RefreshSession(token: string)
    | RegisterDevice(access: string, device: string, publicKey: Option<string>)   // None: not a key
    | CreateDeviceChallenge(access: string, device: string)
    | IssueLease(access: string, device: string, challenge: string, signature: Signature)
    | RevokeDevice(device: string)
    | SetAvailable(available: bool)

  // ---------------------------------------------------------------- one call

  function NewTokens(s: Service, user: string, now: real, g: Generated): (Service, Tokens) {
    (s.(access := s.access[Sha256(g.access) := Access(user, now + ACCESS_SECONDS)]), Tokens(user, g.access, g.refresh))
  }

  function DoStartLogin(s: Service, email: string, pkce: string, now: real, g: Generated): (Service, Reply) {
    if !s.available then (s, Failed(Unavailable))
    else if IsBlank(pkce) then (s, Failed(PkceInvalid))
    else (s.(logins := s.logins[g.id := Login(email, pkce, Sha256(g.otp), now + 300.0, false)]), Challenged(g.id, ""))
  }

  function DoCompleteLogin(
    s: Service, challenge: string, otp: string, verifier: string, now: real, g: Generated): (Service, Reply)
  {
    if !s.available then (s, Failed(Unavailable))
    else if challenge !in s.logins || s.logins[challenge].consumed then (s, Failed(ChallengeInvalid))
    else
      var record := s.logins[challenge];
      if now >= record.expiresAt then (s, Failed(ChallengeExpired))
      else if record.otpDigest != Sha256(otp) then (s, Failed(OtpInvalid))
      else if record.pkceChallenge != ChallengeFor(verifier) then (s, Failed(PkceInvalid))
      else
        var user := if record.email in s.users then s.users[record.email] else g.user;
        var (next, tokens) := NewTokens(
          s.(logins := s.logins[challenge := record.(consumed := true)], users := s.users[record.email := user]),
          user, now, g);
        (next.(ledger := NewFamily(next.ledger, g.id, user, Sha256(g.refresh))), Issued(tokens))
  }

  function NewFamily(l: Ledger, f: string, user: string, digest: Digest): Ledger {
    l.(families := l.families[f := Family(user, digest, false)], live := l.live[digest := f])
  }

  function Rotate(l: Ledger, digest: Digest, newDigest: Digest): Ledger
    requires digest in l.live && l.live[digest] in l.families
  {
    var f := l.live[digest];
    Ledger(l.families[f := l.families[f].(active := newDigest)],
           (l.live - {digest})[newDigest := f],
           l.used[digest := f])
  }

  function Revoke(l: Ledger, f: string): Ledger {
    if f in l.families then l.(families := l.families[f := l.families[f].(revoked := true)]) else l
  }

  /** The token is its family's live, active one and the family is not revoked. */
  predicate Current(l: Ledger, digest: Digest) {
    && digest !in l.used && digest in l.live && l.live[digest] in l.families
    && !l.families[l.live[digest]].revoked && l.families[l.live[digest]].active == digest
  }

  function DoRefresh(s: Service, token: string, now: real, g: Generated): (Service, Reply) {
    var digest := Sha256(token);
    if !s.available then (s, Failed(Unavailable))
    else if digest in s.ledger.used then
      (s.(ledger := Revoke(s.ledger, s.ledger.used[digest])), Failed(TokenReuse))
    else if !Current(s.ledger, digest) then (s, Failed(TokenInvalid))
    else
      var user := s.ledger.families[s.ledger.live[digest]].user;
      var (next, tokens) := NewTokens(s, user, now, g);
      (next.(ledger := Rotate(s.ledger, digest, Sha256(g.refresh))), Issued(tokens))
  }

  /** The user of an access token, or why it is refused. */
  function Authenticate(s: Service, access: string, now: real): (Option<string>, ErrorCode) {
    if !s.available then (None, Unavailable)
    else if Sha256(access) !in s.access || now >= s.access[Sha256(access)].expiresAt then (None, TokenInvalid)
    else (Some(s.access[Sha256(access)].user), TokenInvalid)
  }

  /** `key` is what the text given as a public key decodes to, if it does. */
  function DoRegisterDevice(
    s: Service, access: string, device: string, key: Option<string>, now: real): (Service, Reply)
  {
    var (user, refusal) := Authenticate(s, access, now);
    if user.None? then (s, Failed(refusal))
    else if key.None? then (s, Failed(DeviceInvalid))
    else if device !in s.devices then (s.(devices := s.devices[device := Device(user.value, key.value, false)]), Ok)
    else if s.devices[device].user != user.value || s.devices[device].publicKey != key.value
    then (s, Failed(DeviceInvalid))
    else if s.devices[device].revoked then (s, Failed(DeviceRevoked))
    else (s, Ok)
  }

  /** The registered, unrevoked device of that user, or why it is refused. */
  function RequireDevice(s: Service, user: string, device: string): (r: Option<ErrorCode>)
    ensures r.None? ==> device in s.devices && s.devices[device].user == user && !s.devices[device].revoked
  {
    if device !in s.devices || s.devices[device].user != user then Some(DeviceInvalid)
    else if s.devices[device].revoked then Some(DeviceRevoked)
    else None
  }

  function DoCreateChallenge(s: Service, access: string, device: string, now: real, g: Generated): (Service, Reply) {
    var (user, refusal) := Authenticate(s, access, now);
    if user.None? then (s, Failed(refusal))
    else if RequireDevice(s, user.value, device).Some? then (s, Failed(RequireDevice(s, user.value, device).value))
    else (s.(challenges := s.challenges[g.id := Challenge(user.value, device, g.nonce, now + 120.0, false)]),
          Challenged(g.id, g.nonce))
  }

  function DoIssueLease(
    s: Service, access: string, device: string, challenge: string, signature: Signature, now: real, g: Generated)
    : (Service, Reply)
  {
    var (user, refusal) := Authenticate(s, access, now);
    if user.None? then (s, Failed(refusal))
    else if RequireDevice(s, user.value, device).Some? then (s, Failed(RequireDevice(s, user.value, device).value))
    else if challenge !in s.challenges then (s, Failed(DeviceProofInvalid))
    else
      var c := s.challenges[challenge];
      if c.consumed || c.user != user.value || c.device != device || now >= c.expiresAt
      then (s, Failed(DeviceProofInvalid))
      else if signature != Signature(s.devices[device].publicKey, c.nonce) then (s, Failed(DeviceProofInvalid))
      else (s.(challenges := s.challenges[challenge := c.(consumed := true)]),
            Leased(Lease(g.id, user.value, device, challenge)))
  }

  function Apply(s: Service, call: Call, now: real, g: Generated): (Service, Reply) {
    match call
    case StartLogin(email, pkce) => DoStartLogin(s, email, pkce, now, g)
    case CompleteLogin(challenge, otp, verifier) => DoCompleteLogin(s, challenge, otp, verifier, now, g)
    case RefreshSession(token) => DoRefresh(s, token, now, g)
    case RegisterDevice(access, device, key) => DoRegisterDevice(s, access, device, key, now)
    case CreateDeviceChallenge(access, device) => DoCreateChallenge(s, access, device, now, g)
    case IssueLease(access, device, challenge, signature) =>
      DoIssueLease(s, access, device, challenge, signature, now, g)
    case RevokeDevice(device) =>
      (if device in s.devices then s.(devices := s.devices[device := s.devices[device].(revoked := true)]) else s, Ok)
    case SetAvailable(available) => (s.(available := available), Ok)
  }

  // ---------------------------------------------------------------- the service object

  class FakeIdentityService {
    var available: bool
    var users: map<string, string>
    var logins: map<string, Login>
    var families: map<string, Family>
    var live: map<Digest, string>
    var used: map<Digest, string>
    var access: map<Digest, Access>
    var devices: map<string, Device>
    var challenges: map<string, Challenge>

    function View(): Service
      reads this
    {
      Service(available, users, logins, Ledger(families, live, used), access, devices, challenges)
    }

    /** No recorded token refers to a family that does not exist. */
    ghost predicate Valid()
      reads this
    {
      && (forall d :: d in used ==> used[d] in families)
      && (forall d :: d in live ==> live[d] in families)
    }

    constructor ()
      ensures View() == EMPTY && Valid()
    {
      available, users, logins, families := true, map[], map[], map[];
      live, used, access, devices, challenges := map[], map[], map[], map[], map[];
    }

    method TokenResponse(user: string, now: real, g: Generated) returns (tokens: Tokens)
      modifies this`access
      ensures (View(), tokens) == NewTokens(old(View()), user, now, g)
    {
      access := access[Sha256(g.access) := Access(user, now + ACCESS_SECONDS)];
      tokens := Tokens(user, g.access, g.refresh);
    }

    method CompleteLogin(challenge: string, otp: string, verifier: string, now: real, g: Generated) returns (r: Reply)
      modifies this
      ensures old(Valid()) ==> Valid()
      ensures (View(), r) == DoCompleteLogin(old(View()), challenge, otp, verifier, now, g)
    {
      if !available {
        return Failed(Unavailable);
      }
      if challenge !in logins || logins[challenge].consumed {
        return Failed(ChallengeInvalid);
      }
      var record := logins[challenge];
      if now >= record.expiresAt {
        return Failed(ChallengeExpired);
      }
      if record.otpDigest != Sha256(otp) {
        return Failed(OtpInvalid);
      }
      if record.pkceChallenge != ChallengeFor(verifier) {
        return Failed(PkceInvalid);
      }
      logins := logins[challenge := record.(consumed := true)];
      var user := if record.email in users then users[record.email] else g.user;
      users := users[record.email := user];
      var tokens := TokenResponse(user, now, g);
      families := families[g.id := Family(user, Sha256(g.refresh), false)];
      live := live[Sha256(g.refresh) := g.id];
      r := Issued(tokens);
    }

    method RefreshSession(token: string, now: real, g: Generated) returns (r: Reply)
      requires Valid()
      modifies this
      ensures Valid()
      ensures (View(), r) == DoRefresh(old(View()), token, now, g)
    {
      if !available {
        return Failed(Unavailable);
      }
      var digest := Sha256(token);
      if digest in used {
        var reused := used[digest];
        families := families[reused := families[reused].(revoked := true)];
        return Failed(TokenReuse);
      }
      if digest !in live {
        return Failed(TokenInvalid);
      }
      var family := live[digest];
      if families[family].revoked || families[family].active != digest {
        return Failed(TokenInvalid);
      }
      live := live - {digest};
      used := used[digest := family];
      var tokens := TokenResponse(families[family].user, now, g);
      var newDigest := Sha256(tokens.refresh);
      families := families[family := families[family].(active := newDigest)];
      live := live[newDigest := family];
      r := Issued(tokens);
    }

    method RegisterDevice(token: string, device: string, key: Option<string>, now: real) returns (r: Reply)
      modifies this`devices
      ensures (View(), r) == DoRegisterDevice(old(View()), token, device, key, now)
    {
      var (user, refusal) := Authenticate(View(), token, now);
      if user.None? {
        return Failed(refusal);
      }
      if key.None? {
        return Failed(DeviceInvalid);
      }
      if device in devices {
        if devices[device].user != user.value || devices[device].publicKey != key.value {
          return Failed(DeviceInvalid);
        }
        if devices[device].revoked {
          return Failed(DeviceRevoked);
        }
        return Ok;
      }
      devices := devices[device := Device(user.value, key.value, false)];
      return Ok;
    }

    method CreateDeviceChallenge(token: string, device: string, now: real, g: Generated) returns (r: Reply)
      modifies this`challenges
      ensures (View(), r) == DoCreateChallenge(old(View()), token, device, now, g)
    {
      var (user, refusal) := Authenticate(View(), token, now);
      if user.None? {
        return Failed(refusal);
      }
      var refused := RequireDevice(View(), user.value, device);
      if refused.Some? {
        return Failed(refused.value);
      }
      challenges := challenges[g.id := Challenge(user.value, device, g.nonce, now + 120.0, false)];
      r := Challenged(g.id, g.nonce);
    }

    method IssueLease(
      token: string, device: string, challenge: string, signature: Signature, now: real, g: Generated)
      returns (r: Reply)
      modifies this`challenges
      ensures (View(), r) == DoIssueLease(old(View()), token, device, challenge, signature, now, g)
    {
      var (user, refusal) := Authenticate(View(), token, now);
      if user.None? {
        return Failed(refusal);
      }
      var refused := RequireDevice(View(), user.value, device);
      if refused.Some? {
        return Failed(refused.value);
      }
      if challenge !in challenges {
        return Failed(DeviceProofInvalid);
      }
      var c := challenges[challenge];
      if c.consumed || c.user != user.value || c.device != device || now >= c.expiresAt {
        return Failed(DeviceProofInvalid);
      }
      if signature != Signature(devices[device].publicKey, c.nonce) {
        return Failed(DeviceProofInvalid);
      }
      challenges := challenges[challenge := c.(consumed := true)];
      r := Leased(Lease(g.id, user.value, device, challenge));
    }
  }

  // ---------------------------------------------------------------- whole runs

  datatype Event = Event(call: Call, now: real, generated: Generated)

  /** A refresh token the service accepted, and its family. */
  datatype Rotation = Rotation(token: string, family: string)

  /** The service, every refresh token and id it ever generated, and what it granted. */
  datatype World = World(
    service: Service,
    tokens: set<string>,
    ids: set<string>,
    rotations: seq<Rotation>,
    completed: seq<string>,
    leases: seq<Lease>)

  const START := World(EMPTY, {}, {}, [], [], [])

  function Answer(w: World, e: Event): Reply {
    Apply(w.service, e.call, e.now, e.generated).1
  }

  function Step(w: World, e: Event): World {
    var (service, reply) := Apply(w.service, e.call, e.now, e.generated);
    World(service,
          w.tokens + {e.generated.refresh},
          w.ids + {e.generated.id},
          w.rotations + Rotated(w.service, e),
          w.completed + (if e.call.CompleteLogin? && reply.Issued? then [e.call.challenge] else []),
          w.leases + (if reply.Leased? then [reply.lease] else []))
  }

  function Rotated(s: Service, e: Event): seq<Rotation> {
    if e.call.RefreshSession? && s.available && Current(s.ledger, Sha256(e.call.token))
    then [Rotation(e.call.token, s.ledger.live[Sha256(e.call.token)])] else []
  }

  /** What `secrets` and `uuid4` provide: values never generated before. */
  predicate Fresh(w: World, e: Event) {
    e.generated.refresh !in w.tokens && e.generated.id !in w.ids
  }

  function Run(w: World, events: seq<Event>): World {
    if events == [] then w else Step(Run(w, events[..|events| - 1]), events[|events| - 1])
  }

  predicate Legal(w: World, events: seq<Event>) {
    events == [] ||
    (Legal(w, events[..|events| - 1]) && Fresh(Run(w, events[..|events| - 1]), events[|events| - 1]))
  }

  // ---------------------------------------------------------------- refresh tokens

  /** Each family has exactly one live token, its active one; live and used tokens are apart. */
  ghost predicate Rotating(l: Ledger) {
    && (forall f :: f in l.families ==> l.families[f].active in l.live && l.live[l.families[f].active] == f)
    && (forall d :: d in l.live ==> l.live[d] in l.families && l.families[l.live[d]].active == d)
    && (forall d :: d in l.used ==> l.used[d] in l.families && d !in l.live)
  }

  /** Every token and family on the ledger was generated by the service. */
  ghost predicate Known(l: Ledger, tokens: set<string>, ids: set<string>) {
    && (forall d :: d in l.live || d in l.used ==> d.text in tokens)
    && (forall f :: f in l.families ==> f in ids)
  }

  /** Every accepted token is on the used side, under its family, and was accepted once. */
  ghost predicate AcceptedOnce(l: Ledger, rotations: seq<Rotation>) {
    && (forall i :: 0 <= i < |rotations| ==>
          Sha256(rotations[i].token) in l.used && l.used[Sha256(rotations[i].token)] == rotations[i].family)
    && (forall i, j :: 0 <= i < j < |rotations| ==> rotations[i].token != rotations[j].token)
  }

  ghost predicate TokenInv(w: World) {
    && Rotating(w.service.ledger)
    && Known(w.service.ledger, w.tokens, w.ids)
    && AcceptedOnce(w.service.ledger, w.rotations)
  }

  /** How one call changes the ledger: not at all, or by one of the three movements. */
  function LedgerAfter(s: Service, e: Event): Ledger {
    var reply := Apply(s, e.call, e.now, e.generated).1;
    if e.call.CompleteLogin? && reply.Issued? then
      NewFamily(s.ledger, e.generated.id, reply.tokens.user, Sha256(e.generated.refresh))
    else if e.call.RefreshSession? && s.available && Sha256(e.call.token) in s.ledger.used then
      Revoke(s.ledger, s.ledger.used[Sha256(e.call.token)])
    else if Rotated(s, e) != [] then
      Rotate(s.ledger, Sha256(e.call.token), Sha256(e.generated.refresh))
    else s.ledger
  }

  lemma LedgerMoves(s: Service, e: Event)
    ensures Apply(s, e.call, e.now, e.generated).0.ledger == LedgerAfter(s, e)
  {
    if e.call.CompleteLogin? {
      hide DoRefresh, DoStartLogin, DoRegisterDevice, DoCreateChallenge, DoIssueLease, Rotate, Revoke;
    } else if e.call.RefreshSession? {
      hide DoCompleteLogin, DoStartLogin, DoRegisterDevice, DoCreateChallenge, DoIssueLease, Rotate, Revoke;
    } else {
      hide DoCompleteLogin, DoRefresh;
    }
  }

  lemma NewFamilyKeepsRotating(
    l: Ledger, f: string, user: string, digest: Digest, tokens: set<string>, ids: set<string>)
    requires Rotating(l) && Known(l, tokens, ids) && f !in ids && digest.text !in tokens
    ensures Rotating(NewFamily(l, f, user, digest))
    ensures Known(NewFamily(l, f, user, digest), tokens + {digest.text}, ids + {f})
  {
  }

  lemma RotateKeepsRotating(
    l: Ledger, digest: Digest, newDigest: Digest, tokens: set<string>, ids: set<string>, id: string)
    requires Rotating(l) && Known(l, tokens, ids) && Current(l, digest) && newDigest.text !in tokens
    ensures Rotating(Rotate(l, digest, newDigest))
    ensures Known(Rotate(l, digest, newDigest), tokens + {newDigest.text}, ids + {id})
  {
  }

  lemma RotationIsLogged(l: Ledger, digest: Digest, newDigest: Digest, rotations: seq<Rotation>)
    requires AcceptedOnce(l, rotations) && Current(l, digest)
    ensures AcceptedOnce(Rotate(l, digest, newDigest), rotations + [Rotation(digest.text, l.live[digest])])
  {
  }

  lemma StepKeepsTokens(w: World, e: Event)
    requires TokenInv(w) && Fresh(w, e)
    ensures TokenInv(Step(w, e))
  {
    hide Apply, Rotating, Known, AcceptedOnce;
    var l, g := w.service.ledger, e.generated;
    LedgerMoves(w.service, e);
    LedgerGrows(l, w.tokens, w.ids, w.rotations, g);
    if e.call.CompleteLogin? && Answer(w, e).Issued? {
      NewFamilyKeepsRotating(l, g.id, Answer(w, e).tokens.user, Sha256(g.refresh), w.tokens, w.ids);
      LogSurvives(l, NewFamily(l, g.id, Answer(w, e).tokens.user, Sha256(g.refresh)), w.rotations);
    } else if Rotated(w.service, e) != [] {
      RotateKeepsRotating(l, Sha256(e.call.token), Sha256(g.refresh), w.tokens, w.ids, g.id);
      RotationIsLogged(l, Sha256(e.call.token), Sha256(g.refresh), w.rotations);
    } else if e.call.RefreshSession? && w.service.available && Sha256(e.call.token) in l.used {
      RevokeKeepsAll(l, l.used[Sha256(e.call.token)], w.tokens + {g.refresh}, w.ids + {g.id}, w.rotations);
    }
  }

  lemma LedgerGrows(l: Ledger, tokens: set<string>, ids: set<string>, rotations: seq<Rotation>, g: Generated)
    ensures Known(l, tokens, ids) ==> Known(l, tokens + {g.refresh}, ids + {g.id})
    ensures rotations + [] == rotations
  {
  }

  lemma LogSurvives(l: Ledger, l': Ledger, rotations: seq<Rotation>)
    requires AcceptedOnce(l, rotations) && l'.used == l.used
    ensures AcceptedOnce(l', rotations)
  {
  }

  lemma RevokeKeepsAll(l: Ledger, f: string, tokens: set<string>, ids: set<string>, rotations: seq<Rotation>)
    ensures Rotating(l) ==> Rotating(Revoke(l, f))
    ensures Known(l, tokens, ids) ==> Known(Revoke(l, f), tokens, ids)
    ensures AcceptedOnce(l, rotations) ==> AcceptedOnce(Revoke(l, f), rotations)
  {
  }

  lemma {:induction false} RunKeepsTokens(events: seq<Event>)
    requires Legal(START, events)
    ensures TokenInv(Run(START, events))
  {
    if events != [] {
      RunKeepsTokens(events[..|events| - 1]);
      StepKeepsTokens(Run(START, events[..|events| - 1]), events[|events| - 1]);
    }
  }

  predicate IsRevoked(l: Ledger, f: string) {
    f in l.families && l.families[f].revoked
  }

  /** A family once revoked stays revoked and none of its tokens is accepted again. */
  lemma {:induction false} RevokedForGood(w: World, f: string, events: seq<Event>)
    requires TokenInv(w) && Legal(w, events) && IsRevoked(w.service.ledger, f)
    ensures TokenInv(Run(w, events)) && IsRevoked(Run(w, events).service.ledger, f)
    ensures |w.rotations| <= |Run(w, events).rotations|
    ensures forall i :: |w.rotations| <= i < |Run(w, events).rotations| ==> Run(w, events).rotations[i].family != f
  {
    hide TokenInv, Apply;
    if events != [] {
      var earlier := Run(w, events[..|events| - 1]);
      RevokedForGood(w, f, events[..|events| - 1]);
      StepKeepsTokens(earlier, events[|events| - 1]);
      StepKeepsRevoked(earlier, f, events[|events| - 1]);
    }
  }

  lemma StepKeepsRevoked(w: World, f: string, e: Event)
    requires TokenInv(w) && Fresh(w, e) && IsRevoked(w.service.ledger, f)
    ensures IsRevoked(Step(w, e).service.ledger, f)
    ensures Rotated(w.service, e) == [] || Rotated(w.service, e)[0].family != f
  {
    hide Apply;
    LedgerMoves(w.service, e);
  }

  /** Over every run: one live token per family, every accepted token accepted once; and
      presenting an accepted token again (while the service answers) is reported as reuse, after
      which no token of that family is accepted in any continuation. */
  lemma {:induction false} ReuseEndsTheFamily(events: seq<Event>, i: nat, again: Event, later: seq<Event>)
    requires Legal(START, events)
    requires i < |Run(START, events).rotations|
    requires again.call == RefreshSession(Run(START, events).rotations[i].token)
    requires Run(START, events).service.available && Fresh(Run(START, events), again)
    requires Legal(Step(Run(START, events), again), later)
    ensures var w := Run(START, events);
            var f := w.rotations[i].family;
            && Answer(w, again) == Failed(TokenReuse)
            && Step(w, again).rotations == w.rotations
            && forall k :: |w.rotations| <= k < |Run(Step(w, again), later).rotations| ==>
                 Run(Step(w, again), later).rotations[k].family != f
  {
    hide Run, Legal;
    var w := Run(START, events);
    RunKeepsTokens(events);
    StepKeepsTokens(w, again);
    LedgerMoves(w.service, again);
    RevokedForGood(Step(w, again), w.rotations[i].family, later);
  }

  lemma {:induction false} TokensRotate(events: seq<Event>)
    requires Legal(START, events)
    ensures Rotating(Run(START, events).service.ledger)
    ensures AcceptedOnce(Run(START, events).service.ledger, Run(START, events).rotations)
  {
    RunKeepsTokens(events);
  }

  // ---------------------------------------------------------------- one-time challenges and leases

  ghost predicate LoginsSpent(logins: map<string, Login>, completed: seq<string>, ids: set<string>) {
    && (forall i :: 0 <= i < |completed| ==> completed[i] in logins && logins[completed[i]].consumed)
    && (forall i, j :: 0 <= i < j < |completed| ==> completed[i] != completed[j])
    && (forall c :: c in logins ==> c in ids)
  }

  ghost predicate ProofsSpent(challenges: map<string, Challenge>, leases: seq<Lease>, ids: set<string>) {
    && (forall i :: 0 <= i < |leases| ==> leases[i].challenge in challenges && challenges[leases[i].challenge].consumed)
    && (forall i, j :: 0 <= i < j < |leases| ==> leases[i].challenge != leases[j].challenge)
    && (forall c :: c in challenges ==> c in ids)
  }

  ghost predicate ChallengesSpent(w: World) {
    LoginsSpent(w.service.logins, w.completed, w.ids) && ProofsSpent(w.service.challenges, w.leases, w.ids)
  }

  lemma LoginsStaySpent(w: World, e: Event)
    requires LoginsSpent(w.service.logins, w.completed, w.ids) && Fresh(w, e)
    ensures LoginsSpent(Step(w, e).service.logins, Step(w, e).completed, Step(w, e).ids)
  {
    hide LoginsSpent;
    if e.call.StartLogin? || e.call.CompleteLogin? {
      LoginMoves(w, e);
    } else {
      assert Step(w, e).service.logins == w.service.logins && Step(w, e).completed == w.completed;
      LoginsKeep(w.service.logins, w.completed, w.ids, e.generated.id);
    }
  }

  lemma LoginsKeep(logins: map<string, Login>, completed: seq<string>, ids: set<string>, id: string)
    requires LoginsSpent(logins, completed, ids)
    ensures LoginsSpent(logins, completed, ids + {id})
  {
  }

  lemma LoginMoves(w: World, e: Event)
    requires LoginsSpent(w.service.logins, w.completed, w.ids) && Fresh(w, e)
    requires e.call.StartLogin? || e.call.CompleteLogin?
    ensures LoginsSpent(Step(w, e).service.logins, Step(w, e).completed, Step(w, e).ids)
  {
  }

  lemma ProofsStaySpent(w: World, e: Event)
    requires ProofsSpent(w.service.challenges, w.leases, w.ids) && Fresh(w, e)
    ensures ProofsSpent(Step(w, e).service.challenges, Step(w, e).leases, Step(w, e).ids)
  {
    hide ProofsSpent;
    if e.call.CreateDeviceChallenge? || e.call.IssueLease? {
      ProofMoves(w, e);
    } else {
      assert Step(w, e).service.challenges == w.service.challenges && Step(w, e).leases == w.leases;
      ProofsKeep(w.service.challenges, w.leases, w.ids, e.generated.id);
    }
  }

  lemma ProofsKeep(challenges: map<string, Challenge>, leases: seq<Lease>, ids: set<string>, id: string)
    requires ProofsSpent(challenges, leases, ids)
    ensures ProofsSpent(challenges, leases, ids + {id})
  {
  }

  lemma ProofMoves(w: World, e: Event)
    requires ProofsSpent(w.service.challenges, w.leases, w.ids) && Fresh(w, e)
    requires e.call.CreateDeviceChallenge? || e.call.IssueLease?
    ensures ProofsSpent(Step(w, e).service.challenges, Step(w, e).leases, Step(w, e).ids)
  {
  }

  /** No login challenge and no device challenge is ever redeemed twice. */
  lemma {:induction false} ChallengesAreOneTime(events: seq<Event>)
    requires Legal(START, events)
    ensures ChallengesSpent(Run(START, events))
  {
    if events != [] {
      ChallengesAreOneTime(events[..|events| - 1]);
      LoginsStaySpent(Run(START, events[..|events| - 1]), events[|events| - 1]);
      ProofsStaySpent(Run(START, events[..|events| - 1]), events[|events| - 1]);
    }
  }

  // ---------------------------------------------------------------- access tokens

  const ACCESS_SECONDS := 600.0

  /** An access token handed out: to whom and when. */
  datatype Grant = Grant(access: string, user: string, at: real)

  /** What one call hands out. */
  function GrantOf(w: World, e: Event): seq<Grant> {
    var reply := Answer(w, e);
    if reply.Issued? then [Grant(reply.tokens.access, reply.tokens.user, e.now)] else []
  }

  /** Every access token handed out by logins and refreshes, in order. */
  function Grants(events: seq<Event>): seq<Grant> {
    if events == [] then []
    else
      Grants(events[..|events| - 1]) + GrantOf(Run(START, events[..|events| - 1]), events[|events| - 1])
  }

  /** No access token is generated twice. */
  predicate FreshAccess(events: seq<Event>) {
    forall i, j :: 0 <= i < j < |events| ==> events[i].generated.access != events[j].generated.access
  }

  /** The records are exactly the grants, each until ten minutes after it. */
  ghost predicate Recorded(access: map<Digest, Access>, grants: seq<Grant>, events: seq<Event>) {
    && (forall i :: 0 <= i < |grants| ==>
          && Sha256(grants[i].access) in access
          && access[Sha256(grants[i].access)] == Access(grants[i].user, grants[i].at + ACCESS_SECONDS))
    && (forall d :: d in access ==> exists i :: 0 <= i < |grants| && grants[i].access == d.text)
    && (forall i :: 0 <= i < |grants| ==> Generates(events, grants[i].access))
  }

  predicate Generates(events: seq<Event>, access: string) {
    exists k :: 0 <= k < |events| && events[k].generated.access == access
  }

  lemma AccessMoves(s: Service, e: Event)
    ensures var (next, reply) := Apply(s, e.call, e.now, e.generated);
            && (reply.Issued? ==> reply.tokens.access == e.generated.access)
            && next.access ==
               if reply.Issued?
               then s.access[Sha256(e.generated.access) := Access(reply.tokens.user, e.now + ACCESS_SECONDS)]
               else s.access
  {
    hide Rotate, Revoke, NewFamily, Current;
  }

  lemma GrantIsRecorded(access: map<Digest, Access>, grants: seq<Grant>, before: seq<Event>, e: Event, grant: Grant)
    requires Recorded(access, grants, before) && !Generates(before, e.generated.access)
    requires grant.access == e.generated.access
    ensures Recorded(access[Sha256(grant.access) := Access(grant.user, grant.at + ACCESS_SECONDS)],
                     grants + [grant], before + [e])
  {
    hide Generates;
    var next := access[Sha256(grant.access) := Access(grant.user, grant.at + ACCESS_SECONDS)];
    var more := grants + [grant];
    forall d | d in next ensures exists i :: 0 <= i < |more| && more[i].access == d.text {
      if d == Sha256(grant.access) {
        assert more[|grants|].access == d.text;
      } else {
        var i :| 0 <= i < |grants| && grants[i].access == d.text;
        assert more[i].access == d.text;
      }
    }
    forall i | 0 <= i < |more| ensures Generates(before + [e], more[i].access) {
      GeneratesMore(before, e, more[i].access);
    }
  }

  lemma GeneratesMore(before: seq<Event>, e: Event, access: string)
    ensures Generates(before + [e], access) <==> Generates(before, access) || access == e.generated.access
  {
    var all := before + [e];
    assert all[|before|] == e;
    if Generates(before, access) {
      var k :| 0 <= k < |before| && before[k].generated.access == access;
      assert all[k].generated.access == access;
    }
  }

  lemma StepRecordsGrant(w: World, e: Event, grants: seq<Grant>, before: seq<Event>)
    requires Recorded(w.service.access, grants, before) && !Generates(before, e.generated.access)
    ensures Recorded(Step(w, e).service.access, grants + GrantOf(w, e), before + [e])
  {
    AccessMoves(w.service, e);
    hide Apply, Recorded, Generates;
    if Answer(w, e).Issued? {
      GrantIsRecorded(w.service.access, grants, before, e, GrantOf(w, e)[0]);
    } else {
      assert grants + GrantOf(w, e) == grants;
      StaysRecorded(w.service.access, grants, before, e);
    }
  }

  lemma {:induction false} RunRecordsGrants(events: seq<Event>)
    requires FreshAccess(events)
    ensures Recorded(Run(START, events).service.access, Grants(events), events)
  {
    if events == [] {
      NothingRecorded();
    } else {
      var before, e := events[..|events| - 1], events[|events| - 1];
      assert events == before + [e];
      assert FreshAccess(before);
      NotGeneratedBefore(events);
      hide Step, Recorded, FreshAccess, GrantOf, Generates;
      RunRecordsGrants(before);
      StepRecordsGrant(Run(START, before), e, Grants(before), before);
    }
  }

  lemma NothingRecorded()
    ensures Recorded(START.service.access, [], [])
  {
  }

  lemma NotGeneratedBefore(events: seq<Event>)
    requires FreshAccess(events) && events != []
    ensures !Generates(events[..|events| - 1], events[|events| - 1].generated.access)
  {
  }

  lemma StaysRecorded(access: map<Digest, Access>, grants: seq<Grant>, before: seq<Event>, e: Event)
    requires Recorded(access, grants, before)
    ensures Recorded(access, grants, before + [e])
  {
    hide Generates;
    forall i | 0 <= i < |grants| ensures Generates(before + [e], grants[i].access) {
      GeneratesMore(before, e, grants[i].access);
    }
  }

  /** In every run an access token speaks for a user exactly while the service answers and for less
      than ten minutes after a login or refresh handed it out to that user. */
  lemma {:induction false} AccessTokensAnswer(events: seq<Event>, access: string, now: real, user: string)
    requires FreshAccess(events)
    ensures var s := Run(START, events).service;
            var grants := Grants(events);
            && (Authenticate(s, access, now).0 == Some(user) <==>
                  && s.available
                  && exists i :: 0 <= i < |grants| && grants[i].access == access && grants[i].user == user
                                 && now < grants[i].at + 600.0)
            && (Authenticate(s, access, now).0.None? ==>
                  Authenticate(s, access, now).1 == if s.available then TokenInvalid else Unavailable)
  {
    RunRecordsGrants(events);
    hide Run, Grants;
    var s, grants := Run(START, events).service, Grants(events);
    if Sha256(access) in s.access {
      var i :| 0 <= i < |grants| && grants[i].access == access;
      assert s.access[Sha256(grants[i].access)] == Access(grants[i].user, grants[i].at + ACCESS_SECONDS);
    }
  }

  /** After a device is revoked, no lease is issued for it in any continuation. */
  lemma {:induction false} NoLeaseAfterRevocation(w: World, device: string, events: seq<Event>)
    requires device in w.service.devices && w.service.devices[device].revoked
    ensures var later := Run(w, events);
            && device in later.service.devices && later.service.devices[device].revoked
            && |w.leases| <= |later.leases|
            && forall i :: |w.leases| <= i < |later.leases| ==> later.leases[i].device != device
  {
    if events != [] {
      NoLeaseAfterRevocation(w, device, events[..|events| - 1]);
      RevokedDeviceStays(Run(w, events[..|events| - 1]), device, events[|events| - 1]);
    }
  }

  lemma RevokedDeviceStays(w: World, device: string, e: Event)
    requires device in w.service.devices && w.service.devices[device].revoked
    ensures device in Step(w, e).service.devices && Step(w, e).service.devices[device].revoked
    ensures Answer(w, e).Leased? ==> Answer(w, e).lease.device != device
  {
    DevicesMove(w.service, e, device);
    LeasesNeedTheDevice(w.service, e);
    hide Apply;
  }

  /** Only registering adds a device and only revoking changes one. */
  lemma DevicesMove(s: Service, e: Event, device: string)
    requires device in s.devices && s.devices[device].revoked
    ensures var next := Apply(s, e.call, e.now, e.generated).0.devices;
            device in next && next[device].revoked
  {
    if e.call.RegisterDevice? {
      hide DoStartLogin, DoCompleteLogin, DoRefresh, DoCreateChallenge, DoIssueLease, Authenticate;
    } else if !e.call.RevokeDevice? {
      OthersLeaveDevices(s, e);
      hide Apply;
    }
  }

  lemma OthersLeaveDevices(s: Service, e: Event)
    requires !e.call.RegisterDevice? && !e.call.RevokeDevice?
    ensures Apply(s, e.call, e.now, e.generated).0.devices == s.devices
  {
    hide Rotate, Revoke, NewFamily, Current, Authenticate, ChallengeFor, RequireDevice, DoRegisterDevice;
  }

  lemma LeasesNeedTheDevice(s: Service, e: Event)
    ensures var reply := Apply(s, e.call, e.now, e.generated).1;
            reply.Leased? ==> reply.lease.device in s.devices && !s.devices[reply.lease.device].revoked
  {
    hide Rotate, Revoke, NewFamily, Current, Authenticate, ChallengeFor, RequireDevice;
  }

  /** A login succeeds only for a pending, unexpired challenge, with its code and the verifier
      whose S256 transform the login was started with. */
  lemma LoginNeedsCodeAndVerifier(s: Service, challenge: string, otp: string, verifier: string, now: real, g: Generated)
    ensures DoCompleteLogin(s, challenge, otp, verifier, now, g).1.Issued? <==>
              && s.available && challenge in s.logins && !s.logins[challenge].consumed
              && now < s.logins[challenge].expiresAt
              && s.logins[challenge].otpDigest.text == otp
              && s.logins[challenge].pkceChallenge == ChallengeFor(verifier)
  {
  }
}
