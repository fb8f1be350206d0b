/** `ValidationUserPermissionMiddleware.use`: strips the bearer prefix from the
    authorization header, lets the request through when no token remains,
    and otherwise lets it through only if the token verifies under the
    access secret. */
module PermissionsMiddleware {
  import opened Wrappers
  import opened Http
  import opened Jwt
  import opened Service

  const Bearer: string := "Bearer "

  predicate OccursAt(s: string, pat: string, i: nat)
  {
    i + |pat| <= |s| && s[i..i + |pat|] == pat
  }

  /** The first position at or after `from` where `pat` occurs in `s`. */
  function IndexFrom(s: string, pat: string, from: nat): (r: Option<nat>)
    requires from <= |s|
    decreases |s| - from
    ensures r.Some? ==> from <= r.value && OccursAt(s, pat, r.value)
    ensures forall j :: from <= j && (r.None? || j < r.value) ==> !OccursAt(s, pat, j)
  {
    if OccursAt(s, pat, from) then Some(from)
    else if from == |s| then None
    else IndexFrom(s, pat, from + 1)
  }

  /** JavaScript's `s.replace(pat, '')` with a string pattern: only the first
      occurrence is removed. */
  function ReplaceFirst(s: string, pat: string): (r: string)
    ensures (forall j :: !OccursAt(s, pat, j)) ==> r == s
    ensures OccursAt(s, pat, 0) ==> r == s[|pat|..]
    ensures (exists i: nat :: OccursAt(s, pat, i)) ==> exists i: nat ::
      && OccursAt(s, pat, i)
      && (forall j: nat :: j < i ==> !OccursAt(s, pat, j))
      && r == s[..i] + s[i + |pat|..]
  {
    match IndexFrom(s, pat, 0)
    case None => s
    case Some(i) => s[..i] + s[i + |pat|..]
  }

  /** `req.headers?.authorization?.replace('Bearer ', '') || ''`. */
  function ExtractToken(authorization: Option<string>): (token: string)
    ensures authorization.None? ==> token == ""
    ensures authorization.Some? && OccursAt(authorization.value, Bearer, 0) ==> token == authorization.value[|Bearer|..]
    ensures authorization.Some? && (forall j :: !OccursAt(authorization.value, Bearer, j)) ==> token == authorization.value
  {
    match authorization
    case None => ""
    case Some(header) => ReplaceFirst(header, Bearer)
  }

  /** What the middleware does: call `next` once, or throw before calling it. */
  datatype Decision = Next | Reject(error: HttpError)

  /** `use` at time `now`; `read` stands for the codec's parsing of the wire
      string into a token. The token is verified before its emptiness is
      checked, but an empty token passes whatever the verification said. */
  function Use(cfg: Config, authorization: Option<string>, read: string -> Token, now: int): (d: Decision)
    ensures ExtractToken(authorization) == "" ==> d == Next
    ensures ExtractToken(authorization) != "" ==>
      (d == Next <==> VerifyToken(read(ExtractToken(authorization)), cfg.accessSecret, now).Some?)
    ensures d == Next || d == Reject(Unauthorized)
  {
    var token := ExtractToken(authorization);
    var decodedUser := VerifyToken(read(token), cfg.accessSecret, now);
    if |token| == 0 then Next
    else if decodedUser.None? then Reject(Unauthorized)
    else Next
  }

  /** No header, or a header that is exactly "Bearer ", lets the request through. */
  lemma NoTokenPasses(cfg: Config, read: string -> Token, now: int)
    ensures Use(cfg, None, read, now) == Next
    ensures Use(cfg, Some(Bearer), read, now) == Next
  {
  }

  /** A refresh token presented as the bearer token is rejected, since it is
      signed with the refresh secret. */
  lemma RefreshTokenAsBearerRejected(
    cfg: Config, data: LoginPayload, issuedAt: int, header: string, read: string -> Token, now: int)
    requires cfg.accessSecret != cfg.refreshSecret
    requires ExtractToken(Some(header)) != ""
    requires read(ExtractToken(Some(header))) == Issue(cfg, data, issuedAt).refreshToken
    ensures Use(cfg, Some(header), read, now) == Reject(Unauthorized)
  {
  }

  /** A standard "Bearer <token>" header with a token that verifies under the
      access secret passes. */
  lemma ValidBearerPasses(
    cfg: Config, data: LoginPayload, issuedAt: int, raw: string, read: string -> Token, now: int)
    requires raw != ""
    requires read(raw) == Issue(cfg, data, issuedAt).accessToken
    requires issuedAt <= now < issuedAt + cfg.accessTtl
    ensures Use(cfg, Some(Bearer + raw), read, now) == Next
  {
  }
}
