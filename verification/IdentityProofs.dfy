/** What has to come before the identity service (apps/auth_agent/fake_service.py) hands anything out: a
    lease needs a proof of possession of the device's key for a challenge made less than two minutes
    before, a session needs the code of a login started less than five minutes before. */
module IdentityProofs {
  import opened Optional
  import opened IdentityService

  // ---------------------------------------------------------------- one call

  predicate Speaks(s: Service, access: string, user: string, now: real) {
    && s.available && Sha256(access) in s.access
    && s.access[Sha256(access)].user == user && now < s.access[Sha256(access)].expiresAt
  }

  predicate Owns(s: Service, user: string, device: string) {
    device in s.devices && s.devices[device].user == user && !s.devices[device].revoked
  }

  /** A lease is issued exactly to the owner of an unrevoked device, for an unused and unexpired challenge of
      that user and device, against a signature by the device's key over that challenge's nonce. */
  lemma LeaseNeedsProof(s: Service, e: Event, user: string)
    requires e.call.IssueLease?
    ensures var call := e.call;
            Apply(s, call, e.now, e.generated).1
            == Leased(Lease(e.generated.id, user, call.device, call.challenge)) <==>
              && Speaks(s, call.access, user, e.now) && Owns(s, user, call.device)
              && call.challenge in s.challenges
              && var c := s.challenges[call.challenge];
                 && !c.consumed && c.user == user && c.device == call.device && e.now < c.expiresAt
                 && call.signature.publicKey == s.devices[call.device].publicKey
                 && call.signature.message == c.nonce
    ensures Apply(s, e.call, e.now, e.generated).1.Leased? ==>
              Apply(s, e.call, e.now, e.generated).1.lease.challenge == e.call.challenge
              && Speaks(s, e.call.access, Apply(s, e.call, e.now, e.generated).1.lease.user, e.now)
  {
  }

  /** A challenge is made exactly for the owner of an unrevoked device. */
  lemma ChallengeNeedsDevice(s: Service, e: Event, user: string)
    requires e.call.CreateDeviceChallenge? && Speaks(s, e.call.access, user, e.now)
    ensures Apply(s, e.call, e.now, e.generated).1.Challenged? <==> Owns(s, user, e.call.device)
    ensures Owns(s, user, e.call.device) ==>
              Apply(s, e.call, e.now, e.generated).1 == Challenged(e.generated.id, e.generated.nonce)
  {
  }

  /** A device becomes or stays its user's exactly if nobody else has it, or the user with another key, and it
      was not revoked; registering it again changes nothing. */
  lemma RegistersExactly(s: Service, e: Event, user: string, key: string)
    requires e.call.RegisterDevice? && e.call.publicKey == Some(key) && Speaks(s, e.call.access, user, e.now)
    ensures var (after, reply) := Apply(s, e.call, e.now, e.generated);
            && (reply == Ok <==> e.call.device in s.devices ==> s.devices[e.call.device] == Device(user, key, false))
            && (reply == Ok ==> after.devices == s.devices[e.call.device := Device(user, key, false)])
            && (reply != Ok ==> after == s)
  {
    var (after, reply) := Apply(s, e.call, e.now, e.generated);
    if e.call.device in s.devices && reply == Ok {
      assert s.devices[e.call.device := Device(user, key, false)] == s.devices;
    }
  }

  // ---------------------------------------------------------------- what a call adds

  lemma ChallengesMove(s: Service, e: Event)
    ensures e.call.IssueLease? && Apply(s, e.call, e.now, e.generated).1.Leased? ==> e.call.challenge in s.challenges
    ensures var (next, reply) := Apply(s, e.call, e.now, e.generated);
            next.challenges ==
            if e.call.CreateDeviceChallenge? && reply.Challenged? then s.challenges[e.generated.id :=
              Challenge(s.access[Sha256(e.call.access)].user, e.call.device, e.generated.nonce, e.now + 120.0, false)]
            else if e.call.IssueLease? && reply.Leased? then
              s.challenges[e.call.challenge := s.challenges[e.call.challenge].(consumed := true)]
            else s.challenges
  {
    if e.call.CreateDeviceChallenge? || e.call.IssueLease? {
    } else {
      hide DoCreateChallenge, DoIssueLease, Authenticate, Rotate, Revoke, NewFamily, Current, ChallengeFor;
    }
  }

  lemma LoginsMove(s: Service, e: Event)
    ensures e.call.CompleteLogin? && Apply(s, e.call, e.now, e.generated).1.Issued? ==> e.call.challenge in s.logins
    ensures var (next, reply) := Apply(s, e.call, e.now, e.generated);
            next.logins ==
            if e.call.StartLogin? && reply.Challenged? then s.logins[e.generated.id :=
              Login(e.call.email, e.call.pkceChallenge, Sha256(e.generated.otp), e.now + 300.0, false)]
            else if e.call.CompleteLogin? && reply.Issued? then
              s.logins[e.call.challenge := s.logins[e.call.challenge].(consumed := true)]
            else s.logins
  {
    hide Authenticate, RequireDevice, Rotate, Revoke, NewFamily, Current, ChallengeFor;
  }

  // ---------------------------------------------------------------- over runs

  /** The service as the k-th event finds it, and its answer. */
  function Found(events: seq<Event>, k: nat): World
    requires k <= |events|
  {
    Run(START, events[..k])
  }

  function AnswerAt(events: seq<Event>, k: nat): Reply
    requires k < |events|
  {
    Answer(Found(events, k), events[k])
  }

  /** The k-th event made this device challenge. */
  ghost predicate MadeAt(events: seq<Event>, k: nat, id: string, c: Challenge)
    requires k < |events|
  {
    var e := events[k];
    && e.call.CreateDeviceChallenge? && e.call.device == c.device
    && AnswerAt(events, k) == Challenged(id, c.nonce)
    && Speaks(Found(events, k).service, e.call.access, c.user, e.now)
    && c.expiresAt == e.now + 120.0
  }

  /** The k-th event started this login. */
  ghost predicate StartedAt(events: seq<Event>, k: nat, id: string, l: Login)
    requires k < |events|
  {
    var e := events[k];
    && e.call == StartLogin(l.email, l.pkceChallenge)
    && AnswerAt(events, k) == Challenged(id, "")
    && l.otpDigest == Sha256(e.generated.otp) && l.expiresAt == e.now + 300.0
  }

  ghost predicate Made(events: seq<Event>, id: string, c: Challenge) {
    exists k :: 0 <= k < |events| && MadeAt(events, k, id, c)
  }

  ghost predicate Begun(events: seq<Event>, id: string, l: Login) {
    exists k :: 0 <= k < |events| && StartedAt(events, k, id, l)
  }

  ghost predicate AllMade(events: seq<Event>, challenges: map<string, Challenge>) {
    forall id :: id in challenges ==> Made(events, id, challenges[id])
  }

  ghost predicate AllBegun(events: seq<Event>, logins: map<string, Login>) {
    forall id :: id in logins ==> Begun(events, id, logins[id])
  }

  lemma StillMade(before: seq<Event>, e: Event, id: string, c: Challenge)
    requires Made(before, id, c)
    ensures Made(before + [e], id, c) && Made(before + [e], id, c.(consumed := true))
  {
    var k :| 0 <= k < |before| && MadeAt(before, k, id, c);
    assert (before + [e])[..k] == before[..k];
    hide Run, Answer;
    assert MadeAt(before + [e], k, id, c) && MadeAt(before + [e], k, id, c.(consumed := true));
  }

  lemma StillBegun(before: seq<Event>, e: Event, id: string, l: Login)
    requires Begun(before, id, l)
    ensures Begun(before + [e], id, l) && Begun(before + [e], id, l.(consumed := true))
  {
    var k :| 0 <= k < |before| && StartedAt(before, k, id, l);
    assert (before + [e])[..k] == before[..k];
    hide Run, Answer;
    assert StartedAt(before + [e], k, id, l) && StartedAt(before + [e], k, id, l.(consumed := true));
  }

  lemma JustMade(before: seq<Event>, e: Event)
    requires e.call.CreateDeviceChallenge? && Answer(Run(START, before), e).Challenged?
    ensures Sha256(e.call.access) in Run(START, before).service.access
    ensures var user := Run(START, before).service.access[Sha256(e.call.access)].user;
            Made(before + [e], e.generated.id, Challenge(user, e.call.device, e.generated.nonce, e.now + 120.0, false))
  {
    var all, k := before + [e], |before|;
    assert all[..k] == before && all[k] == e;
    hide Run;
    var user := Run(START, before).service.access[Sha256(e.call.access)].user;
    assert MadeAt(all, k, e.generated.id, Challenge(user, e.call.device, e.generated.nonce, e.now + 120.0, false));
  }

  lemma JustBegun(before: seq<Event>, e: Event)
    requires e.call.StartLogin? && Answer(Run(START, before), e).Challenged?
    ensures Begun(before + [e], e.generated.id,
                  Login(e.call.email, e.call.pkceChallenge, Sha256(e.generated.otp), e.now + 300.0, false))
  {
    var all, k := before + [e], |before|;
    assert all[..k] == before && all[k] == e;
    hide Run;
    assert StartedAt(all, k, e.generated.id,
                     Login(e.call.email, e.call.pkceChallenge, Sha256(e.generated.otp), e.now + 300.0, false));
  }

  lemma StepKeepsMade(before: seq<Event>, e: Event)
    requires AllMade(before, Run(START, before).service.challenges)
    ensures AllMade(before + [e], Step(Run(START, before), e).service.challenges)
  {
    var w := Run(START, before);
    var was := w.service.challenges;
    ChallengesMove(w.service, e);
    hide Apply;
    if e.call.CreateDeviceChallenge? && Answer(w, e).Challenged? {
      JustMade(before, e);
    }
    hide Run, Made;
    forall id | id in was
      ensures Made(before + [e], id, was[id]) && Made(before + [e], id, was[id].(consumed := true))
    {
      StillMade(before, e, id, was[id]);
    }
  }

  lemma StepKeepsBegun(before: seq<Event>, e: Event)
    requires AllBegun(before, Run(START, before).service.logins)
    ensures AllBegun(before + [e], Step(Run(START, before), e).service.logins)
  {
    var w := Run(START, before);
    var was := w.service.logins;
    LoginsMove(w.service, e);
    hide Apply;
    if e.call.StartLogin? && Answer(w, e).Challenged? {
      JustBegun(before, e);
    }
    hide Run, Begun;
    forall id | id in was
      ensures Begun(before + [e], id, was[id]) && Begun(before + [e], id, was[id].(consumed := true))
    {
      StillBegun(before, e, id, was[id]);
    }
  }

  lemma {:induction false} EverythingHasAnOrigin(events: seq<Event>)
    ensures AllMade(events, Run(START, events).service.challenges)
    ensures AllBegun(events, Run(START, events).service.logins)
  {
    if events != [] {
      var before, e := events[..|events| - 1], events[|events| - 1];
      assert events == before + [e];
      EverythingHasAnOrigin(before);
      hide AllMade, AllBegun, Step;
      StepKeepsMade(before, e);
      StepKeepsBegun(before, e);
    }
  }

  /** In every run each lease follows a challenge that was made for its user and device less than 120 seconds
      before, and answers that challenge's nonce with the device's key. */
  lemma {:induction false} LeaseFollowsChallenge(events: seq<Event>, n: nat) returns (m: nat)
    requires n < |events| && AnswerAt(events, n).Leased?
    ensures m < n
    ensures var lease, proof, made := AnswerAt(events, n).lease, events[n].call, events[m];
            && made.call.CreateDeviceChallenge? && made.call.device == lease.device
            && Speaks(Found(events, m).service, made.call.access, lease.user, made.now)
            && proof.IssueLease? && lease.challenge == proof.challenge
            && AnswerAt(events, m) == Challenged(proof.challenge, proof.signature.message)
            && Owns(Found(events, n).service, lease.user, lease.device)
            && proof.signature.publicKey == Found(events, n).service.devices[lease.device].publicKey
            && events[n].now < made.now + 120.0
  {
    var e, s := events[n], Found(events, n).service;
    EverythingHasAnOrigin(events[..n]);
    LeasesComeFromProofs(s, e);
    LeaseNeedsProof(s, e, AnswerAt(events, n).lease.user);
    hide Run, Apply;
    var c := s.challenges[e.call.challenge];
    m :| 0 <= m < n && MadeAt(events[..n], m, e.call.challenge, c);
    assert events[..n][..m] == events[..m];
  }

  lemma LeasesComeFromProofs(s: Service, e: Event)
    ensures var reply := Apply(s, e.call, e.now, e.generated).1;
            reply.Leased? ==>
              && e.call.IssueLease?
              && reply.lease == Lease(e.generated.id, reply.lease.user, e.call.device, e.call.challenge)
  {
    hide Rotate, Revoke, NewFamily, Current, Authenticate, ChallengeFor, RequireDevice;
  }

  /** In every run each login that is completed was started less than 300 seconds before, with the code
      generated then and with the transform of the verifier now presented. */
  lemma {:induction false} SessionFollowsLogin(events: seq<Event>, n: nat) returns (m: nat)
    requires n < |events| && events[n].call.CompleteLogin? && AnswerAt(events, n).Issued?
    ensures m < n
    ensures var start, end := events[m], events[n];
            && start.call.StartLogin? && start.call.pkceChallenge == ChallengeFor(end.call.verifier)
            && AnswerAt(events, m) == Challenged(end.call.challenge, "")
            && start.generated.otp == end.call.otp
            && end.now < start.now + 300.0
  {
    var e, s := events[n], Found(events, n).service;
    EverythingHasAnOrigin(events[..n]);
    LoginNeedsCodeAndVerifier(s, e.call.challenge, e.call.otp, e.call.verifier, e.now, e.generated);
    hide Run, DoCompleteLogin;
    var l := s.logins[e.call.challenge];
    m :| 0 <= m < n && StartedAt(events[..n], m, e.call.challenge, l);
    assert events[..n][..m] == events[..m];
  }

  // ---------------------------------------------------------------- users

  /** Users are entered by logins and never changed. */
  lemma UsersMove(s: Service, e: Event)
    ensures var (next, reply) := Apply(s, e.call, e.now, e.generated);
            if e.call.CompleteLogin? && reply.Issued? then
              && e.call.challenge in s.logins
              && var email := s.logins[e.call.challenge].email;
                 && next.users == s.users[email := reply.tokens.user]
                 && reply.tokens.user == if email in s.users then s.users[email] else e.generated.user
            else next.users == s.users
  {
    hide Authenticate, RequireDevice, Rotate, Revoke, NewFamily, Current, ChallengeFor;
  }

  ghost predicate OneUserEach(users: map<string, string>, events: seq<Event>) {
    && (forall a, b :: a in users && b in users && users[a] == users[b] ==> a == b)
    && (forall a :: a in users ==> exists k :: 0 <= k < |events| && events[k].generated.user == users[a])
  }

  predicate FreshUsers(events: seq<Event>) {
    forall i, j :: 0 <= i < j < |events| ==> events[i].generated.user != events[j].generated.user
  }

  lemma StepKeepsUsers(
    users: map<string, string>, next: map<string, string>, before: seq<Event>, e: Event, email: string)
    requires OneUserEach(users, before) && FreshUsers(before + [e])
    requires next == users || next == users[email := if email in users then users[email] else e.generated.user]
    ensures OneUserEach(next, before + [e])
  {
    var all := before + [e];
    assert all[|before|] == e;
    assert forall k :: 0 <= k < |before| ==> all[k] == before[k];
    forall a | a in next ensures exists k :: 0 <= k < |all| && all[k].generated.user == next[a] {
      if a in users {
        var k :| 0 <= k < |before| && before[k].generated.user == users[a];
        assert all[k].generated.user == next[a];
      } else {
        assert all[|before|].generated.user == next[a];
      }
    }
  }

  lemma {:induction false} UsersStayApart(events: seq<Event>)
    requires FreshUsers(events)
    ensures OneUserEach(Run(START, events).service.users, events)
  {
    if events != [] {
      var before, e := events[..|events| - 1], events[|events| - 1];
      assert events == before + [e];
      assert FreshUsers(before);
      UsersStayApart(before);
      var s := Run(START, before).service;
      UsersMove(s, e);
      hide OneUserEach, FreshUsers, Apply;
      StepKeepsUsers(s.users, Run(START, events).service.users, before, e,
                     if e.call.CompleteLogin? && e.call.challenge in s.logins
                     then s.logins[e.call.challenge].email else "");
    }
  }

  /** A user once entered for an address stays. */
  lemma {:induction false} UserStays(events: seq<Event>, m: nat, email: string)
    requires m <= |events| && email in Found(events, m).service.users
    ensures email in Run(START, events).service.users
    ensures Run(START, events).service.users[email] == Found(events, m).service.users[email]
    decreases |events|
  {
    if m == |events| {
      assert events[..m] == events;
    } else {
      var before := events[..|events| - 1];
      assert before[..m] == events[..m];
      UserStays(before, m, email);
      UsersMove(Run(START, before).service, events[|events| - 1]);
      hide Apply;
    }
  }

  function AddressAt(events: seq<Event>, k: nat): string
    requires k < |events| && events[k].call.CompleteLogin?
    requires events[k].call.challenge in Found(events, k).service.logins
  {
    Found(events, k).service.logins[events[k].call.challenge].email
  }

  lemma LoginEnters(events: seq<Event>, k: nat)
    requires k < |events| && events[k].call.CompleteLogin? && AnswerAt(events, k).Issued?
    ensures events[k].call.challenge in Found(events, k).service.logins
    ensures var users := Found(events, k + 1).service.users;
            AddressAt(events, k) in users && users[AddressAt(events, k)] == AnswerAt(events, k).tokens.user
  {
    UsersMove(Found(events, k).service, events[k]);
    assert events[..k + 1][..k] == events[..k];
    hide Apply;
  }

  /** In every run two logins give the same user exactly when they are for the same address. */
  lemma {:induction false} SameAddressSameUser(events: seq<Event>, m: nat, n: nat)
    requires m < n < |events| && FreshUsers(events)
    requires events[m].call.CompleteLogin? && AnswerAt(events, m).Issued?
    requires events[n].call.CompleteLogin? && AnswerAt(events, n).Issued?
    ensures events[m].call.challenge in Found(events, m).service.logins
    ensures events[n].call.challenge in Found(events, n).service.logins
    ensures AnswerAt(events, m).tokens.user == AnswerAt(events, n).tokens.user <==>
            AddressAt(events, m) == AddressAt(events, n)
  {
    LoginEnters(events, m);
    LoginEnters(events, n);
    var upTo := events[..n + 1];
    assert FreshUsers(upTo);
    assert upTo[..m + 1] == events[..m + 1];
    hide Run, AnswerAt, AddressAt, FreshUsers;
    UsersStayApart(upTo);
    UserStays(upTo, m + 1, AddressAt(events, m));
  }
}
