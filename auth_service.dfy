/** `AuthService`: credential validation, issuing the access/refresh pair,
    verification that collapses every failure to null, and the delegations
    to the session store. */
module Service {
  import opened Wrappers
  import opened Http
  import opened Users
  import opened Jwt
  import opened SessionStore

  /** The deployment's constants: the secrets read from the environment
      (`ACCESS_TOKEN_USER`, `REFRESH_TOKEN_USER`) and the lifetimes in
      `authConstants` (JWT access and refresh `expiresIn`, Redis `EX`). */
  datatype Config = Config(
    accessSecret: Secret,
    refreshSecret: Secret,
    accessTtl: nat,
    refreshTtl: nat,
    sessionTtl: nat)

  /** `LoginPayload`: `role` is optional, and absent when a refresh re-issues. */
  datatype LoginPayload = LoginPayload(id: int, email: Email, role: Option<Role>)

  /** `ValidateUserOutput`, the projection of a principal that signs in. */
  datatype Identity = Identity(id: int, email: Email, role: Role)

  /** `JwtTokensDto`, the response of sign-in and refresh. */
  datatype TokenPair = TokenPair(id: int, email: Email, accessToken: Token, refreshToken: Token)

  /** `validateUser`: the principal is looked up by email in `users` (the user
      store's `findByEmail`); `passwordMatches(password, hash)` stands for
      `bcrypt.compare`. An unknown email throws NotFound, a wrong password
      gives null, a match gives the principal's {id, email, role}. */
  function ValidateUser(
    users: map<Email, User>,
    passwordMatches: (string, string) -> bool,
    email: Email,
    password: string): (r: Outcome<Option<Identity>>)
    ensures r == Fail(NotFound) <==> email !in users
    ensures r == Ok(None) <==> email in users && !passwordMatches(password, users[email].passwordHash)
    ensures email in users && passwordMatches(password, users[email].passwordHash) ==>
      r == Ok(Some(Identity(users[email].id, users[email].email, users[email].role)))
    ensures r.Ok? && r.value.Some? ==>
      && email in users
      && passwordMatches(password, users[email].passwordHash)
      && r.value.value == Identity(users[email].id, users[email].email, users[email].role)
  {
    if email !in users then Fail(NotFound)
    else
      var user := users[email];
      if !passwordMatches(password, user.passwordHash) then Ok(None)
      else Ok(Some(Identity(user.id, user.email, user.role)))
  }

  /** The one payload `login` signs twice. */
  function PayloadOf(data: LoginPayload): Payload
  {
    Payload(data.id, Some(data.email), data.role)
  }

  /** The pair `login` returns at time `now`: the payload signed once with the
      access secret and lifetime, once with the refresh secret and lifetime. */
  function Issue(cfg: Config, data: LoginPayload, now: int): (r: TokenPair)
    ensures r.id == data.id && r.email == data.email
    // both tokens carry {id, email, role} copied from the input, role possibly absent
    ensures Decode(r.accessToken) == Some(Claims(Payload(data.id, Some(data.email), data.role), now, now + cfg.accessTtl))
    ensures Decode(r.refreshToken) == Some(Claims(Payload(data.id, Some(data.email), data.role), now, now + cfg.refreshTtl))
    // each verifies under its own secret for its own lifetime
    ensures forall at :: now <= at < now + cfg.accessTtl ==>
      VerifyToken(r.accessToken, cfg.accessSecret, at) == Decode(r.accessToken)
    ensures forall at :: now <= at < now + cfg.refreshTtl ==>
      VerifyToken(r.refreshToken, cfg.refreshSecret, at) == Decode(r.refreshToken)
    // and never under the other one
    ensures cfg.accessSecret != cfg.refreshSecret ==> forall at ::
      VerifyToken(r.accessToken, cfg.refreshSecret, at) == None && VerifyToken(r.refreshToken, cfg.accessSecret, at) == None
  {
    var payload := PayloadOf(data);
    TokenPair(
      data.id,
      data.email,
      Sign(payload, cfg.accessSecret, now, cfg.accessTtl),
      Sign(payload, cfg.refreshSecret, now, cfg.refreshTtl))
  }

  /** `createVerifyToken`: an access-secret token over {id} alone. */
  function CreateVerifyToken(cfg: Config, id: int, now: int): (t: Token)
    ensures Decode(t) == Some(Claims(Payload(id, None, None), now, now + cfg.accessTtl))
    ensures forall at :: now <= at < now + cfg.accessTtl ==> VerifyToken(t, cfg.accessSecret, at) == Decode(t)
    ensures cfg.accessSecret != cfg.refreshSecret ==> forall at :: VerifyToken(t, cfg.refreshSecret, at) == None
  {
    Sign(Payload(id, None, None), cfg.accessSecret, now, cfg.accessTtl)
  }

  /** `verifyToken`: the verified claims, or null whatever the failure was. */
  function VerifyToken(t: Token, secret: Secret, now: int): (r: Option<Claims>)
    ensures r.Some? <==> t.Signed? && t.secret == secret && now < t.claims.exp
    ensures r.Some? ==> Decode(t) == r
  {
    match Verify(t, secret, now)
    case Verified(c) => Some(c)
    case Rejected(_) => None
  }

  class AuthService {
    const repository: AuthRepository
    const config: Config

    /** The store's TTL is the configured session lifetime. */
    ghost predicate Valid()
    {
      repository.ttl == config.sessionTtl
    }

    constructor (repository: AuthRepository, config: Config)
      requires repository.ttl == config.sessionTtl
      ensures Valid() && this.repository == repository && this.config == config
    {
      this.repository := repository;
      this.config := config;
    }

    /** `login`: issues the pair and makes its refresh token the email's only session. */
    method Login(data: LoginPayload, now: int) returns (r: TokenPair)
      requires Valid()
      modifies repository
      ensures r == Issue(config, data, now)
      ensures repository.slots == Put(old(repository.slots), data.email, r.refreshToken, now, config.sessionTtl)
    {
      var payload := PayloadOf(data);
      var accessToken := Sign(payload, config.accessSecret, now, config.accessTtl);
      var refreshToken := Sign(payload, config.refreshSecret, now, config.refreshTtl);
      repository.AddRefreshToken(data.email, refreshToken, now);
      r := TokenPair(data.id, data.email, accessToken, refreshToken);
    }

    method GetRefreshTokenByEmail(email: Email, now: int) returns (r: Option<Token>)
      ensures r == Lookup(repository.slots, email, now)
    {
      r := repository.GetToken(email, now);
    }

    method DeleteTokenByEmail(email: Email, now: int) returns (count: nat)
      modifies repository
      ensures Removal(repository.slots, count) == Remove(old(repository.slots), email, now)
    {
      count := repository.RemoveToken(email, now);
    }
  }
}
