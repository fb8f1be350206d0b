/** Properties of the session-credential protocol as a whole: what the
    store can hold, what rotation and logout do to a presented token, and
    what any sequence of sign-ins, refreshes and logouts leaves in the store. */
module SessionProtocol {
  import opened Wrappers
  import opened Http
  import opened Users
  import opened Jwt
  import opened SessionStore
  import opened Service
  import opened Controller
  import opened RolesGuard

  /** Every slot holds a refresh token signed with the refresh secret and
      naming the slot's own email. */
  ghost predicate WellFormed(cfg: Config, m: Slots)
  {
    forall e :: e in m ==>
      && m[e].token.Signed?
      && m[e].token.secret == cfg.refreshSecret
      && m[e].token.claims.payload.email == Some(e)
  }

  /** The requests that touch the session store. */
  datatype Request = SignIn(user: Identity) | Refresh(presented: Token) | Logout(token: Token)

  datatype Step = Step(request: Request, now: int)

  /** The store after one request. */
  function Apply(cfg: Config, m: Slots, s: Step): Slots
  {
    match s.request
    case SignIn(u) =>
      Put(m, u.email, Issue(cfg, LoginPayload(u.id, u.email, Some(u.role)), s.now).refreshToken, s.now, cfg.sessionTtl)
    case Refresh(p) => RefreshStep(cfg, m, p, s.now).slots
    case Logout(t) => LogoutStep(cfg, m, t, s.now).slots
  }

  /** The store after a sequence of requests handled one after another. */
  function Run(cfg: Config, m: Slots, steps: seq<Step>): Slots
    decreases |steps|
  {
    if steps == [] then m else Run(cfg, Apply(cfg, m, steps[0]), steps[1..])
  }

  /** The only email whose slot a request may change. */
  function Subject(cfg: Config, s: Step): Option<Email>
  {
    match s.request
    case SignIn(u) => Some(u.email)
    case Refresh(p) => DecodedEmail(p)
    case Logout(t) =>
      match VerifyToken(t, cfg.accessSecret, s.now)
      case None => None
      case Some(c) => c.payload.email
  }

  /** The refresh token a request issues, if it issues one. */
  function Issued(cfg: Config, m: Slots, s: Step): Option<Token>
  {
    match s.request
    case SignIn(u) => Some(Issue(cfg, LoginPayload(u.id, u.email, Some(u.role)), s.now).refreshToken)
    case Refresh(p) =>
      var t := RefreshStep(cfg, m, p, s.now);
      if t.result.Ok? then Some(t.result.value.refreshToken) else None
    case Logout(_) => None
  }

  /** A request, handled against store `m`, that cannot change the slot of
      `e`: it concerns another email, or it is a refresh that fails (a failed
      refresh answers without writing). */
  function LeavesSlot(cfg: Config, m: Slots, s: Step, e: Email): bool
  {
    || Subject(cfg, s) != Some(e)
    || (s.request.Refresh? && RefreshStep(cfg, m, s.request.presented, s.now).result.Fail?)
  }

  /** One request keeps the store well formed, leaves alone every slot it
      cannot change, and a token it issues is what its subject's slot holds. */
  lemma ApplyFacts(cfg: Config, m: Slots, s: Step)
    ensures WellFormed(cfg, m) ==> WellFormed(cfg, Apply(cfg, m, s))
    ensures forall e :: LeavesSlot(cfg, m, s, e) ==>
      (e in Apply(cfg, m, s) <==> e in m) && (e in m ==> Apply(cfg, m, s)[e] == m[e])
    ensures Issued(cfg, m, s).Some? ==>
      && Subject(cfg, s).Some?
      && Subject(cfg, s).value in Apply(cfg, m, s)
      && Apply(cfg, m, s)[Subject(cfg, s).value] == Entry(Issued(cfg, m, s).value, s.now + cfg.sessionTtl)
  {
  }

  lemma {:induction false} RunPreservesWellFormed(cfg: Config, m: Slots, steps: seq<Step>)
    requires WellFormed(cfg, m)
    ensures WellFormed(cfg, Run(cfg, m, steps))
    decreases |steps|
  {
    if steps != [] {
      ApplyFacts(cfg, m, steps[0]);
      RunPreservesWellFormed(cfg, Apply(cfg, m, steps[0]), steps[1..]);
    }
  }

  /** Requests about other emails never change an email's slot. */
  lemma {:induction false} RunLeavesOthersAlone(cfg: Config, m: Slots, steps: seq<Step>, e: Email)
    requires forall i :: 0 <= i < |steps| ==> Subject(cfg, steps[i]) != Some(e)
    ensures e in Run(cfg, m, steps) <==> e in m
    ensures e in m ==> Run(cfg, m, steps)[e] == m[e]
    decreases |steps|
  {
    if steps != [] {
      ApplyFacts(cfg, m, steps[0]);
      assert forall i :: 0 <= i < |steps[1..]| ==> steps[1..][i] == steps[i + 1];
      RunLeavesOthersAlone(cfg, Apply(cfg, m, steps[0]), steps[1..], e);
    }
  }

  lemma {:induction false} RunAppend(cfg: Config, m: Slots, a: seq<Step>, b: seq<Step>)
    ensures Run(cfg, m, a + b) == Run(cfg, Run(cfg, m, a), b)
    decreases |a|
  {
    if a != [] {
      var m1 := Apply(cfg, m, a[0]);
      assert (a + b)[0] == a[0];
      assert (a + b)[1..] == a[1..] + b;
      assert Run(cfg, m, a + b) == Run(cfg, m1, a[1..] + b);
      assert Run(cfg, m, a) == Run(cfg, m1, a[1..]);
      RunAppend(cfg, m1, a[1..], b);
    } else {
      assert a + b == b;
    }
  }

  /** An email's slot survives any sequence of requests each of which, in
      the store it meets, leaves that slot alone. */
  lemma {:induction false} RunKeepsSlot(cfg: Config, m: Slots, steps: seq<Step>, e: Email)
    requires forall j :: 0 <= j < |steps| ==> LeavesSlot(cfg, Run(cfg, m, steps[..j]), steps[j], e)
    ensures e in Run(cfg, m, steps) <==> e in m
    ensures e in m ==> Run(cfg, m, steps)[e] == m[e]
    decreases |steps|
  {
    if steps != [] {
      var m1 := Apply(cfg, m, steps[0]);
      assert steps[..0] == [];
      assert LeavesSlot(cfg, Run(cfg, m, steps[..0]), steps[0], e);
      ApplyFacts(cfg, m, steps[0]);
      var rest := steps[1..];
      forall j | 0 <= j < |rest|
        ensures LeavesSlot(cfg, Run(cfg, m1, rest[..j]), rest[j], e)
      {
        var pre := steps[..j + 1];
        assert pre[0] == steps[0] && pre[1..] == rest[..j];
        assert Run(cfg, m, pre) == Run(cfg, m1, rest[..j]);
        assert rest[j] == steps[j + 1];
        assert LeavesSlot(cfg, Run(cfg, m, steps[..j + 1]), steps[j + 1], e);
      }
      RunKeepsSlot(cfg, m1, rest, e);
    }
  }

  /** Single session: an email's slot holds the refresh token of the last
      request that issued one for it, for as long as every later request
      concerns another email or is a refresh that fails (a replayed old
      token, say). A later sign-in or successful refresh replaces it and a
      later successful logout removes it. */
  /** The store after the first `k` requests, seen from just after request `i`. */
  lemma RunThrough(cfg: Config, m: Slots, steps: seq<Step>, i: nat, k: nat)
    requires i < k <= |steps|
    ensures Run(cfg, m, steps[..k]) == Run(cfg, Apply(cfg, Run(cfg, m, steps[..i]), steps[i]), steps[i + 1..k])
  {
    var before := Run(cfg, m, steps[..i]);
    assert steps[..k] == steps[..i] + ([steps[i]] + steps[i + 1..k]);
    RunAppend(cfg, m, steps[..i], [steps[i]] + steps[i + 1..k]);
    RunAppend(cfg, before, [steps[i]], steps[i + 1..k]);
    assert Run(cfg, before, [steps[i]]) == Apply(cfg, before, steps[i]);
  }

  /** A later request's effect on a slot, re-read from just after request `i`. */
  lemma LeavesSlotFromStep(cfg: Config, m: Slots, steps: seq<Step>, i: nat, k: nat, e: Email)
    requires i < k < |steps|
    requires LeavesSlot(cfg, Run(cfg, m, steps[..k]), steps[k], e)
    ensures LeavesSlot(cfg, Run(cfg, Apply(cfg, Run(cfg, m, steps[..i]), steps[i]), steps[i + 1..][..k - i - 1]),
                       steps[i + 1..][k - i - 1], e)
  {
    RunThrough(cfg, m, steps, i, k);
    assert steps[i + 1..][..k - i - 1] == steps[i + 1..k];
    assert steps[i + 1..][k - i - 1] == steps[k];
  }

  lemma LatestIssueIsTheSession(cfg: Config, m: Slots, steps: seq<Step>, i: nat, e: Email)
    requires i < |steps|
    requires Issued(cfg, Run(cfg, m, steps[..i]), steps[i]).Some?
    requires Subject(cfg, steps[i]) == Some(e)
    requires forall j :: i < j < |steps| ==> LeavesSlot(cfg, Run(cfg, m, steps[..j]), steps[j], e)
    ensures e in Run(cfg, m, steps)
    ensures Run(cfg, m, steps)[e]
         == Entry(Issued(cfg, Run(cfg, m, steps[..i]), steps[i]).value, steps[i].now + cfg.sessionTtl)
  {
    var before := Run(cfg, m, steps[..i]);
    var after := Apply(cfg, before, steps[i]);
    ApplyFacts(cfg, before, steps[i]);
    var rest := steps[i + 1..];
    forall j | 0 <= j < |rest|
      ensures LeavesSlot(cfg, Run(cfg, after, rest[..j]), rest[j], e)
    {
      LeavesSlotFromStep(cfg, m, steps, i, i + 1 + j, e);
    }
    RunKeepsSlot(cfg, after, rest, e);
    RunThrough(cfg, m, steps, i, |steps|);
    assert steps[..|steps|] == steps;
  }

  /** Authenticity of a refresh rests on the equality check alone; in a well
      formed store that is enough: an accepted token is a refresh-secret token
      naming the email whose session it was. */
  lemma RefreshAcceptsOnlyStoredRefreshTokens(cfg: Config, m: Slots, presented: Token, now: int)
    requires WellFormed(cfg, m)
    requires RefreshStep(cfg, m, presented, now).result.Ok?
    ensures presented.Signed? && presented.secret == cfg.refreshSecret
    ensures presented.claims.payload.email.Some?
    ensures Lookup(m, presented.claims.payload.email.value, now) == Some(presented)
  {
  }

  /** Rotation invalidates: once a token issued before `now` has been
      exchanged at `now`, presenting it again at any later time is refused
      and changes nothing. */
  lemma RotationInvalidatesOldToken(cfg: Config, m: Slots, used: Token, now: int, later: int)
    requires RefreshStep(cfg, m, used, now).result.Ok?
    requires used.claims.iat < now
    requires now <= later
    ensures var m' := RefreshStep(cfg, m, used, now).slots;
      RefreshStep(cfg, m', used, later) == Transition(Fail(Unauthorized), m')
  {
  }

  /** The assumption above is needed: a JWT is a function of its payload and
      issue second, so a role-less token issued at `now` and exchanged in the
      same second is re-issued byte for byte and stays usable. */
  lemma SameSecondRotationReissuesSameToken(cfg: Config, m: Slots, id: int, e: Email, now: int)
    requires Lookup(m, e, now) == Some(Issue(cfg, LoginPayload(id, e, None), now).refreshToken)
    ensures var t := RefreshStep(cfg, m, Issue(cfg, LoginPayload(id, e, None), now).refreshToken, now);
      && t.result.Ok?
      && t.result.value.refreshToken == Issue(cfg, LoginPayload(id, e, None), now).refreshToken
  {
  }

  /** After logging out, the session's refresh token can no longer be
      exchanged, nor can any other token naming that email. */
  lemma LogoutEndsSession(cfg: Config, m: Slots, token: Token, now: int, presented: Token, later: int)
    requires LogoutStep(cfg, m, token, now).result.Ok?
    requires Decode(presented).Some? && DecodedEmail(presented) == token.claims.payload.email
    ensures var m' := LogoutStep(cfg, m, token, now).slots;
      RefreshStep(cfg, m', presented, later) == Transition(Fail(Unauthorized), m')
  {
  }

  /** The rotation scenario: sign in, exchange the refresh token once, and
      the old token is refused while the new one is accepted. */
  lemma RotationScenario(cfg: Config, m: Slots, user: Identity, t0: int, t1: int, t2: int)
    requires t0 < t1 <= t2 < t1 + cfg.sessionTtl
    requires t1 < t0 + cfg.sessionTtl
    ensures var a := Issue(cfg, LoginPayload(user.id, user.email, Some(user.role)), t0).refreshToken;
      var m1 := Apply(cfg, m, Step(SignIn(user), t0));
      var r2 := RefreshStep(cfg, m1, a, t1);
      && r2.result.Ok?
      && RefreshStep(cfg, r2.slots, a, t2).result == Fail(Unauthorized)
      && RefreshStep(cfg, r2.slots, r2.result.value.refreshToken, t2).result.Ok?
  {
  }

  /** `request.user` as the access-token strategy projects verified claims. */
  function RequestUserOf(c: Claims): RequestUser
  {
    RequestUser(c.payload.id, c.payload.email, c.payload.role)
  }

  /** A pair obtained by refreshing carries no role, so its access token is
      refused by every route that declares roles. */
  lemma RefreshedAccessIsRoleless(cfg: Config, m: Slots, presented: Token, now: int, at: int, roles: seq<Role>)
    requires RefreshStep(cfg, m, presented, now).result.Ok?
    requires VerifyToken(RefreshStep(cfg, m, presented, now).result.value.accessToken, cfg.accessSecret, at).Some?
    ensures var c := VerifyToken(RefreshStep(cfg, m, presented, now).result.value.accessToken, cfg.accessSecret, at).value;
      c.payload.role.None? && CanActivate(Some(roles), Some(RequestUserOf(c))) == Ok(false)
  {
  }
}
