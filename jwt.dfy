/** The token codec the core uses through `JwtService` (`sign`, `verifyAsync`,
    `decode`), modelled abstractly: a token records the claims it carries and
    the secret that signed it, so that a signature check is a comparison of
    secrets and a forged or tampered token is one signed with another secret.
    Any string that is not a compact JWT is `Malformed`. */
module Jwt {
  import opened Wrappers
  import opened Users

  type Secret = string

  /** The JSON object handed to `sign`: `login` signs {id, email, role?},
      a refresh re-signs {id, email}, `createVerifyToken` signs {id}. */
  datatype Payload = Payload(id: int, email: Option<Email>, role: Option<Role>)

  /** What `decode` and `verify` give back: the payload together with the
      registered claims `iat` (issued at) and `exp` (expires at), in seconds. */
  datatype Claims = Claims(payload: Payload, iat: int, exp: int)

  datatype Token = Signed(claims: Claims, secret: Secret) | Malformed(text: string)

  datatype VerifyError = NotAToken | BadSignature | Expired

  datatype Verification = Verified(claims: Claims) | Rejected(reason: VerifyError)

  /** `jwt.sign(payload, {secret, expiresIn: ttl})` at clock time `now`. */
  function Sign(payload: Payload, secret: Secret, now: int, ttl: nat): (t: Token)
    // decoding gives back exactly what was signed
    ensures Decode(t) == Some(Claims(payload, now, now + ttl))
    // verification with the signing secret succeeds until the token expires ...
    ensures forall at :: now <= at < now + ttl ==> Verify(t, secret, at) == Verified(Claims(payload, now, now + ttl))
    // ... and fails from its expiry instant on
    ensures forall at :: now + ttl <= at ==> Verify(t, secret, at) == Rejected(Expired)
    // verification with any other secret always fails
    ensures forall other, at :: other != secret ==> Verify(t, other, at) == Rejected(BadSignature)
  {
    Signed(Claims(payload, now, now + ttl), secret)
  }

  /** `jwt.verify(token, {secret})` at clock time `now`: the signature is
      checked first, then the expiry (a token is expired once `now >= exp`). */
  function Verify(t: Token, secret: Secret, now: int): Verification
  {
    match t
    case Malformed(_) => Rejected(NotAToken)
    case Signed(c, s) =>
      if s != secret then Rejected(BadSignature)
      else if c.exp <= now then Rejected(Expired)
      else Verified(c)
  }

  /** `jwt.decode(token)`: reads the claims without checking signature or expiry;
      null for a string that is not a token. */
  function Decode(t: Token): Option<Claims>
  {
    match t
    case Malformed(_) => None
    case Signed(c, _) => Some(c)
  }

  /** Verification never accepts more than decoding shows: a verified token
      decodes to the same claims, was signed with the secret asked for and
      has not expired. */
  lemma VerifiedImpliesDecoded(t: Token, secret: Secret, now: int)
    requires Verify(t, secret, now).Verified?
    ensures Decode(t) == Some(Verify(t, secret, now).claims)
    ensures t.Signed? && t.secret == secret && now < t.claims.exp
  {
  }
}
