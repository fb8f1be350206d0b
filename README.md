# Session credentials of the NestJS API, in Dafny

This project models the session-credential protocol of the API's auth module
and the two request gates built on it:

- the Redis refresh-token store (`AuthRepository`): one slot per email, which
  `set` overwrites, `get` reads while its TTL lasts, and `del` removes and counts;
- `AuthService`: `validateUser` (unknown email, wrong password, or the
  `{id, email, role}` projection), `login` (one payload signed with the access
  secret and with the refresh secret, the refresh token written into the
  email's slot), `verifyToken` (claims or null), `createVerifyToken` and the
  two store delegations;
- `AuthController`: `signIn`, refresh-token rotation (decode without
  verification, exact equality with the stored token, re-issue from
  `{id, email}`), `getUserByAccessToken` and `logout`;
- `RolesGuard` (`canActivate`, `matchRoles`);
- `ValidationUserPermissionMiddleware.use`.

Tokens are a datatype `Token = Signed(claims, secret) | Malformed(text)`:
verification with secret `s` at time `now` succeeds exactly when the token
was signed with `s` and `now < exp`; decoding reads the claims of any signed
token without checks. The clock is a parameter
`now` (seconds) of every operation that reads it. bcrypt's comparison is a
function parameter `passwordMatches`, and the user store's `findByEmail` is a
map from email to user.

The imperative parts keep their form: `AuthRepository`, `AuthService` and
`AuthController` are classes whose methods change the store's `slots` map,
and each method is proved equal to a pure transition (`Put`, `Remove`,
`Issue`, `RefreshStep`, `LogoutStep`). The properties are proved about those
transitions, and `SessionProtocol` lifts them to whole sequences of sign-ins,
refreshes and logouts (`Run`).

Behaviours of the code that the model keeps as they are:

- a route that declares an empty role list denies everyone, since `[]` is
  truthy and `includes` on it is false;
- an undecodable refresh token is answered with Forbidden, every other
  refresh failure with Unauthorized;
- `logout` takes an access token, not an email, and answers NotFound when
  no live refresh token was removed;
- `validateUser` throws NotFound for an unknown email and returns null for
  a wrong password;
- a token is expired from the instant `now == exp` on, as the jsonwebtoken
  library checks it.

## Model

| member | source | states |
|---|---|---|
| `Jwt.Sign` | src/modules/v1/auth/auth.service.ts:55-62 | decoding a signed token gives back the payload with `iat = now` and `exp = now + ttl`; it verifies under its own secret exactly before `exp`, is Expired from `exp` on, and never verifies under another secret |
| `Jwt.VerifiedImpliesDecoded` | src/modules/v1/auth/auth.service.ts:96-104 | a verified token decodes to the same claims, was signed with the secret asked for, and has not expired |
| `SessionStore.Put` | src/modules/v1/auth/auth.repository.ts:16-23 | after `set`, the key holds the new token and only it for the whole TTL and nothing after; no other key changes |
| `SessionStore.Remove` | src/modules/v1/auth/auth.repository.ts:29-31 | `del` answers 1 exactly when the key held a live token and 0 otherwise; afterwards the key reads null; no other key changes |
| `SessionStore.AuthRepository.AddRefreshToken` | src/modules/v1/auth/auth.repository.ts:16-23 | the store becomes `Put` of the old store: the slot is overwritten, never appended to |
| `SessionStore.AuthRepository.GetToken` | src/modules/v1/auth/auth.repository.ts:25-27 | answers the stored token exactly when the key is present and its TTL has not elapsed, null otherwise (so null for a key never set), and changes nothing |
| `SessionStore.AuthRepository.RemoveToken` | src/modules/v1/auth/auth.repository.ts:29-31 | the store and the count are those of `Remove` |
| `Service.ValidateUser` | src/modules/v1/auth/auth.service.ts:27-46 | NotFound exactly when no user has the email; null exactly when the password does not match; otherwise the stored user's `{id, email, role}`; no token state is involved |
| `Service.Issue` | src/modules/v1/auth/auth.service.ts:48-71 | the pair echoes the input's id and email; both tokens carry `{id, email, role}` from the input (role possibly absent); the access token verifies under the access secret for the access lifetime, the refresh token under the refresh secret for the refresh lifetime, and with distinct secrets neither verifies under the other's |
| `Service.AuthService.Login` | src/modules/v1/auth/auth.service.ts:48-72 | returns `Issue` of its input and leaves the email's slot holding exactly the returned refresh token |
| `Service.AuthService.GetRefreshTokenByEmail` | src/modules/v1/auth/auth.service.ts:74-76 | answers what the store holds for the email at that time |
| `Service.AuthService.DeleteTokenByEmail` | src/modules/v1/auth/auth.service.ts:78-80 | removes the email's slot and answers the removed count, as `Remove` |
| `Service.CreateVerifyToken` | src/modules/v1/auth/auth.service.ts:82-90 | the token carries `{id}` alone (no email, no role), verifies under the access secret for the access lifetime, and never under a distinct refresh secret |
| `Service.VerifyToken` | src/modules/v1/auth/auth.service.ts:92-108 | answers claims exactly when the token was signed with the given secret and is unexpired, and those are the token's decoded claims; every failure is null |
| `Controller.RefreshStep` | src/modules/v1/auth/auth.controller.ts:256-283 | Forbidden with the store unchanged when the token does not decode; success exactly when the stored token for the decoded email equals the presented one (signature and expiry never checked); every failure leaves the store unchanged; on success the pair is `Issue` of `{id, email}` with no role, and the slot now holds its refresh token |
| `Controller.LogoutStep` | src/modules/v1/auth/auth.controller.ts:370-389 | Forbidden with nothing deleted when access verification fails; otherwise the verified email's slot is removed and the answer is NotFound exactly when no live token was there |
| `Controller.GetUserByAccessToken` | src/modules/v1/auth/auth.controller.ts:320-333 | Forbidden exactly when access-secret verification fails; otherwise the token's claims unchanged |
| `Controller.AuthController.SignIn` | src/modules/v1/auth/auth.controller.ts:137-143 | logs in the validated principal with its role and leaves its slot holding the new refresh token |
| `Controller.AuthController.RefreshToken` | src/modules/v1/auth/auth.controller.ts:253-284 | answer and new store are those of `RefreshStep` |
| `Controller.AuthController.Logout` | src/modules/v1/auth/auth.controller.ts:370-389 | answer and new store are those of `LogoutStep` |
| `RolesGuard.MatchRoles` | src/guards/roles.guard.ts:20-26 | a missing role denies; otherwise allows exactly when the role is one of the expected ones |
| `RolesGuard.CanActivate` | src/guards/roles.guard.ts:10-18 | no roles metadata allows without looking at the user; declared roles with no user fail; otherwise allows exactly when the user has a role and it is listed |
| `RolesGuard.EmptyRoleListDeniesEveryone` | src/guards/roles.guard.ts:11-25 | a declared empty role list denies every user |
| `RolesGuard.AdminDevRoutes` | src/modules/v1/products/products.controller.ts:285-286 | `[ADMIN, DEV]` admits ADMIN and DEV and refuses USER and a role-less user |
| `RolesGuard.WideningRolesKeepsAccess` | src/guards/roles.guard.ts:25 | a user admitted by a role list is admitted by any longer list that extends it |
| `PermissionsMiddleware.ExtractToken` | src/middleware/validate-user-permissions.middleware.ts:27 | a missing header gives the empty token; a header starting with `Bearer ` gives the rest of it; a header without `Bearer ` is the token as is |
| `PermissionsMiddleware.ReplaceFirst` | src/middleware/validate-user-permissions.middleware.ts:27 | only the first occurrence of the pattern is removed, and nothing when it does not occur |
| `PermissionsMiddleware.Use` | src/middleware/validate-user-permissions.middleware.ts:26-44 | an empty token passes whatever verification said; a non-empty token passes exactly when it verifies under the access secret; the only rejection is Unauthorized |
| `PermissionsMiddleware.NoTokenPasses` | src/middleware/validate-user-permissions.middleware.ts:34-37 | no header, or a header that is exactly `Bearer `, passes |
| `PermissionsMiddleware.RefreshTokenAsBearerRejected` | src/middleware/validate-user-permissions.middleware.ts:29-41 | a refresh token sent as the bearer token is rejected with Unauthorized when the secrets differ |
| `PermissionsMiddleware.ValidBearerPasses` | src/middleware/validate-user-permissions.middleware.ts:29-43 | `Bearer <access token>` passes while the access token is unexpired |
| `SessionProtocol.ApplyFacts` | src/modules/v1/auth/auth.repository.ts:16-31 | one sign-in, refresh or logout keeps the store well formed; it changes no slot but its own email's, and not even that one when it is a refresh that fails; it leaves its slot holding any token it issued |
| `SessionProtocol.RunPreservesWellFormed` | src/modules/v1/auth/auth.service.ts:59-64 | along any sequence of requests, every slot holds a refresh-secret token naming the slot's own email |
| `SessionProtocol.RunLeavesOthersAlone` | src/modules/v1/auth/auth.repository.ts:16-31 | requests about other emails never change an email's slot |
| `SessionProtocol.RunKeepsSlot` | src/modules/v1/auth/auth.controller.ts:256-273 | a slot is unchanged by any sequence of requests each of which concerns another email or is a refresh that fails |
| `SessionProtocol.LatestIssueIsTheSession` | src/modules/v1/auth/auth.repository.ts:16-23 | an email's one slot holds the refresh token of the last request that issued one for it, with its full TTL, while every later request concerns another email or is a failed refresh (a replayed old token included); a later sign-in or successful refresh replaces it, and a later successful logout removes it |
| `SessionProtocol.RefreshAcceptsOnlyStoredRefreshTokens` | src/modules/v1/auth/auth.controller.ts:256-273 | in a well-formed store an accepted refresh token is a refresh-secret token naming an email, and is the one stored for it |
| `SessionProtocol.RotationInvalidatesOldToken` | src/modules/v1/auth/auth.controller.ts:264-283 | a token issued before the current second, once exchanged, is refused with Unauthorized at any later time and changes nothing |
| `SessionProtocol.SameSecondRotationReissuesSameToken` | src/modules/v1/auth/auth.controller.ts:275-283 | a role-less token exchanged in the second it was issued is re-issued identical, so it stays usable |
| `SessionProtocol.LogoutEndsSession` | src/modules/v1/auth/auth.controller.ts:380-388 | after a successful logout, any refresh naming that email is refused with Unauthorized |
| `SessionProtocol.RotationScenario` | src/modules/v1/auth/auth.controller.ts:253-283 | sign in with token A, exchange A for B: A is then refused and B accepted |
| `SessionProtocol.RefreshedAccessIsRoleless` | src/modules/v1/auth/auth.controller.ts:275-278 | the access token of a refreshed pair carries no role and is refused by every route that declares roles |

## Left out

- JWT cryptography and the compact serialisation: tokens are the `Token` datatype; in the middleware a parameter `read` stands for parsing the header string into a token.
- bcrypt hashing and comparison: the comparison is the parameter `passwordMatches`.
- The passport local strategy and `LocalAuthGuard` are not part of this model; `SignIn` takes the principal they validated. The access-token strategy is modelled only as its `{id, email, role}` projection (`RequestUserOf`).
- `JwtAccessGuard` and the `AuthBearer` decorator are not part of this model; the token they extract is a parameter.
- Sign-up (`usersService.create`) and the other user, product and category CRUD: persistence pass-throughs outside the protocol.
- Concurrency: requests are handled one after another; two refreshes racing on the same stored token, or logins racing on one slot, are not modelled.
- Redis and configuration failures (connection errors, a missing secret in the environment) are not modelled.
- A token whose payload has no email (the `{id}` token of `createVerifyToken`) is modelled as finding no slot on refresh and deleting nothing on logout; what the Redis client does with an undefined key is not modelled.
- `isEmpty(decodedUser)` is modelled as "verification failed": verified claims always carry `iat`, so they are never an empty object.
- Wire-string equality of tokens is modelled as equality of the `Token` datatype: the compact JWT encoding is taken to be injective, which the model does not prove.
- SessionProtocol.RotationInvalidatesOldToken: assumes the old token was issued before the second of the exchange, because a JWT with the same payload signed in the same second is byte-identical (`SameSecondRotationReissuesSameToken` shows the case the assumption excludes).
