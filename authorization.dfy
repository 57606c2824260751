/** The `authorizeRole(allowedRoles)` middleware. */
module Authorization {
  import opened Basics
  import opened Types
  import opened Http

  const UnauthorizedAccess := "Unauthorized access"

  /** `next` is called exactly when there is a session user whose role is in
      the allow-list; every refusal is a 401, never a 403. */
  function AuthorizeRole(allowed: seq<Role>, user: Option<SessionUser>): (gate: Gate)
    ensures gate == Next <==> user.Some? && user.value.role in allowed
    ensures gate != Next ==> gate == Halt(401, UnauthorizedAccess)
  {
    if user.None? || user.value.role !in allowed then Halt(401, UnauthorizedAccess) else Next
  }

  /** A role admitted by one allow-list is admitted by every list containing it. */
  lemma AuthorizeRoleMonotone(allowed: seq<Role>, wider: seq<Role>, user: Option<SessionUser>)
    requires forall r :: r in allowed ==> r in wider
    requires AuthorizeRole(allowed, user) == Next
    ensures AuthorizeRole(wider, user) == Next
  {
  }

  /** An empty allow-list refuses everyone. */
  lemma EmptyAllowListRejects(user: Option<SessionUser>)
    ensures AuthorizeRole([], user) == Halt(401, UnauthorizedAccess)
  {
  }

  /** The `["ADMIN"]` list used by the routers refuses a USER session. */
  lemma AdminListRejectsUser(id: string)
    ensures AuthorizeRole([ADMIN], Some(SessionUser(id, USER))) == Halt(401, UnauthorizedAccess)
    ensures AuthorizeRole([ADMIN], Some(SessionUser(id, ADMIN))) == Next
  {
  }
}
