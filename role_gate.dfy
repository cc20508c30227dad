/** `requireRole(roles)` from middlewares/role.middleware.js: the route
    guard that either writes a 401 or 403 response or hands the request on
    with `next()`. The authenticated user is `req.user`, absent when no
    session was established. */
module RoleGate {
  import opened Wrappers

  datatype User = User(id: nat, role: string)

  /** What the middleware does with a request: write a response with the
      given status (and not call `next`), or call `next` and write nothing. */
  datatype Decision = Respond(status: nat) | Next

  const UNAUTHORIZED: nat := 401
  const FORBIDDEN: nat := 403

  function RequireRole(roles: seq<string>, user: Option<User>): (d: Decision)
    ensures d == Respond(UNAUTHORIZED) <==> user.None?
    ensures d == Respond(FORBIDDEN) <==> user.Some? && user.value.role !in roles
    ensures d == Next <==> user.Some? && user.value.role in roles
  {
    if user.None? then Respond(UNAUTHORIZED)
    else if user.value.role !in roles then Respond(FORBIDDEN)
    else Next
  }

  /** `requireRole()` with the default empty list. */
  function RequireAnyOf(user: Option<User>): (d: Decision)
    ensures user.Some? ==> d == Respond(FORBIDDEN)
    ensures user.None? ==> d == Respond(UNAUTHORIZED)
  {
    RequireRole([], user)
  }

  /** Whether a request from `user` gets past the guard. */
  predicate Admits(roles: seq<string>, user: User) {
    RequireRole(roles, Some(user)) == Next
  }
}
