/** `AuthController`: the decision logic of sign-in, refresh-token rotation,
    reading the current principal and logout. `RefreshStep` and `LogoutStep` are the
    store transitions that the controller's methods perform step by step. */
module Controller {
  import opened Wrappers
  import opened Http
  import opened Users
  import opened Jwt
  import opened SessionStore
  import opened Service

  /** What a request answers and the store it leaves behind. */
  datatype Transition<+T> = Transition(result: Outcome<T>, slots: Slots)

  /** The email a presented token names, read without any verification. */
  function DecodedEmail(t: Token): Option<Email>
  {
    match Decode(t)
    case None => None
    case Some(c) => c.payload.email
  }

  /** The session slot a lookup by `email` finds; a token without an email
      finds none. */
  function StoredFor(m: Slots, email: Option<Email>, now: int): Option<Token>
  {
    match email
    case None => None
    case Some(e) => Lookup(m, e, now)
  }

  /** `refreshToken` at time `now`: decode without verification (Forbidden if
      that fails), fetch the decoded email's stored token, demand exact
      equality with the presented one (Unauthorized otherwise), then re-issue
      through `login` from {id, email} alone. */
  function RefreshStep(cfg: Config, m: Slots, presented: Token, now: int): (t: Transition<TokenPair>)
    ensures Decode(presented).None? ==> t == Transition(Fail(Forbidden), m)
    // success exactly when the presented token is the one stored for the email it names;
    // its signature and its own expiry are never looked at
    ensures t.result.Ok? <==> Decode(presented).Some? && StoredFor(m, DecodedEmail(presented), now) == Some(presented)
    ensures Decode(presented).Some? && t.result.Fail? ==> t.result.error == Unauthorized
    ensures t.result.Fail? ==> t.slots == m
    // on success the pair is minted from {id, email}, without role, and the slot now holds its refresh token
    ensures t.result.Ok? ==>
      var c := presented.claims.payload;
      && t.result.value == Issue(cfg, LoginPayload(c.id, c.email.value, None), now)
      && t.slots == Put(m, c.email.value, t.result.value.refreshToken, now, cfg.sessionTtl)
  {
    match Decode(presented)
    case None => Transition(Fail(Forbidden), m)
    case Some(c) =>
      var stored := StoredFor(m, c.payload.email, now);
      if stored.None? || stored.value != presented then Transition(Fail(Unauthorized), m)
      else
        var pair := Issue(cfg, LoginPayload(c.payload.id, c.payload.email.value, None), now);
        Transition(Ok(pair), Put(m, c.payload.email.value, pair.refreshToken, now, cfg.sessionTtl))
  }

  /** `logout` at time `now`: verify with the access secret (Forbidden on
      failure), delete the slot of the verified email, and answer NotFound
      when nothing live was deleted. A verified token without an email
      deletes nothing. */
  function LogoutStep(cfg: Config, m: Slots, token: Token, now: int): (t: Transition<()>)
    ensures VerifyToken(token, cfg.accessSecret, now).None? ==> t == Transition(Fail(Forbidden), m)
    ensures t.result.Ok? <==>
      && VerifyToken(token, cfg.accessSecret, now).Some?
      && StoredFor(m, token.claims.payload.email, now).Some?
    ensures VerifyToken(token, cfg.accessSecret, now).Some? && t.result.Fail? ==> t.result.error == NotFound
    // a verified token's email loses its slot; every other slot is kept
    ensures VerifyToken(token, cfg.accessSecret, now).Some? && token.claims.payload.email.Some? ==>
      t.slots == m - {token.claims.payload.email.value}
    ensures VerifyToken(token, cfg.accessSecret, now).Some? && token.claims.payload.email.None? ==> t.slots == m
  {
    match VerifyToken(token, cfg.accessSecret, now)
    case None => Transition(Fail(Forbidden), m)
    case Some(c) =>
      match c.payload.email
      case None => Transition(Fail(NotFound), m)
      case Some(e) =>
        var removal := Remove(m, e, now);
        Transition(if removal.count == 0 then Fail(NotFound) else Ok(()), removal.slots)
  }

  /** `getUserByAccessToken`: the verified claims unchanged, or Forbidden. */
  function GetUserByAccessToken(cfg: Config, token: Token, now: int): (r: Outcome<Claims>)
    ensures r.Fail? <==> VerifyToken(token, cfg.accessSecret, now).None?
    ensures r.Fail? ==> r.error == Forbidden
    ensures r.Ok? ==> token.Signed? && token.secret == cfg.accessSecret && r.value == token.claims
  {
    match VerifyToken(token, cfg.accessSecret, now)
    case None => Fail(Forbidden)
    case Some(c) => Ok(c)
  }

  class AuthController {
    const service: AuthService

    constructor (service: AuthService)
      ensures this.service == service
    {
      this.service := service;
    }

    /** `signIn`: logs in the principal the local strategy validated. */
    method SignIn(user: Identity, now: int) returns (r: TokenPair)
      requires service.Valid()
      modifies service.repository
      ensures r == Issue(service.config, LoginPayload(user.id, user.email, Some(user.role)), now)
      ensures service.repository.slots == Put(old(service.repository.slots), user.email, r.refreshToken, now, service.config.sessionTtl)
    {
      r := service.Login(LoginPayload(user.id, user.email, Some(user.role)), now);
    }

    method RefreshToken(presented: Token, now: int) returns (r: Outcome<TokenPair>)
      requires service.Valid()
      modifies service.repository
      ensures Transition(r, service.repository.slots) == RefreshStep(service.config, old(service.repository.slots), presented, now)
    {
      var decoded := Decode(presented);
      if decoded.None? {
        return Fail(Forbidden);
      }
      var c := decoded.value;
      var stored: Option<Token> := None;
      if c.payload.email.Some? {
        stored := service.GetRefreshTokenByEmail(c.payload.email.value, now);
      }
      if stored.None? || stored.value != presented {
        return Fail(Unauthorized);
      }
      var pair := service.Login(LoginPayload(c.payload.id, c.payload.email.value, None), now);
      r := Ok(pair);
    }

    method Logout(token: Token, now: int) returns (r: Outcome<()>)
      modifies service.repository
      ensures Transition(r, service.repository.slots) == LogoutStep(service.config, old(service.repository.slots), token, now)
    {
      var decoded := VerifyToken(token, service.config.accessSecret, now);
      if decoded.None? {
        return Fail(Forbidden);
      }
      var email := decoded.value.payload.email;
      if email.None? {
        return Fail(NotFound);
      }
      var count := service.DeleteTokenByEmail(email.value, now);
      if count == 0 {
        return Fail(NotFound);
      }
      r := Ok(());
    }
  }
}
