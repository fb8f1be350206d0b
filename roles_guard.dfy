/** `RolesGuard`: lets a request through when the route declares no roles,
    and otherwise only when the authenticated principal's role is one of the
    declared ones. */
module RolesGuard {
  import opened Wrappers
  import opened Http
  import opened Users

  /** `request.user` as the access-token strategy sets it: {id, email, role},
      each copied from the verified payload and possibly absent. */
  datatype RequestUser = RequestUser(id: int, email: Option<Email>, role: Option<Role>)

  /** `matchRoles`: a missing role denies; otherwise `expectedRoles.includes(role)`. */
  function MatchRoles(expectedRoles: seq<Role>, userRole: Option<Role>): (r: bool)
    ensures userRole.None? ==> !r
    ensures userRole.Some? ==> (r <==> exists i :: 0 <= i < |expectedRoles| && expectedRoles[i] == userRole.value)
  {
    userRole.Some? && userRole.value in expectedRoles
  }

  /** `canActivate`: `roles` is the route's `@Roles` metadata (None when the
      route has none) and `user` is `request.user`. With roles declared and
      no user, reading `user.role` throws, which the framework answers with
      a 500. */
  function CanActivate(roles: Option<seq<Role>>, user: Option<RequestUser>): (r: Outcome<bool>)
    ensures roles.None? ==> r == Ok(true)
    ensures roles.Some? && user.None? ==> r == Fail(InternalError)
    ensures roles.Some? && user.Some? ==> r.Ok? && (r.value <==> user.value.role.Some? && user.value.role.value in roles.value)
  {
    match roles
    case None => Ok(true)
    case Some(expected) =>
      match user
      case None => Fail(InternalError)
      case Some(u) => Ok(MatchRoles(expected, u.role))
  }

  /** A declared but empty role list lets no one through. */
  lemma EmptyRoleListDeniesEveryone(user: RequestUser)
    ensures CanActivate(Some([]), Some(user)) == Ok(false)
  {
  }

  /** The routes guarded by `@Roles([ADMIN, DEV])` admit ADMIN and DEV, and
      refuse USER and a principal without a role. */
  lemma AdminDevRoutes(id: int, email: Option<Email>)
    ensures CanActivate(Some([ADMIN, DEV]), Some(RequestUser(id, email, Some(ADMIN)))) == Ok(true)
    ensures CanActivate(Some([ADMIN, DEV]), Some(RequestUser(id, email, Some(DEV)))) == Ok(true)
    ensures CanActivate(Some([ADMIN, DEV]), Some(RequestUser(id, email, Some(USER)))) == Ok(false)
    ensures CanActivate(Some([ADMIN, DEV]), Some(RequestUser(id, email, None))) == Ok(false)
  {
  }

  /** Adding roles to a route's list never shuts out someone it admitted. */
  lemma WideningRolesKeepsAccess(roles: seq<Role>, more: seq<Role>, user: RequestUser)
    requires CanActivate(Some(roles), Some(user)) == Ok(true)
    ensures CanActivate(Some(roles + more), Some(user)) == Ok(true)
  {
  }
}
