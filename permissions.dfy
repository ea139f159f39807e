/** Stand-ins for the `checkAuth` and `checkOrganization` guards the
    operations import (app/src/server/auth/permissions is not part of this
    model). Each either admits the caller or fails, before any read or write
    of the store. */
module Permissions {
  import opened Types

  /** `checkAuth(context.user)`: there must be an authenticated user. */
  function CheckAuth(caller: Option<User>): (r: Result<User>)
    ensures r.Ok? <==> caller.Some?
    ensures r.Ok? ==> r.value == caller.value
    ensures r.Err? ==> r.error.Status() == 401
  {
    match caller
    case None => Err(Unauthorized)
    case Some(u) => Ok(u)
  }

  /** `checkOrganization(context.user)`: the user must belong to an organisation. */
  function CheckOrganization(user: User): (r: Option<Error>)
    ensures r.None? <==> user.organizationId.Some?
    ensures r.Some? ==> r.value.Status() == 403
  {
    if user.organizationId.Some? then None else Some(NoOrganization)
  }

  /** Both guards, in the order every organisation-scoped operation calls them. */
  function Authorize(caller: Option<User>): (r: Result<User>)
    ensures r.Ok? <==> caller.Some? && caller.value.organizationId.Some?
    ensures r.Ok? ==> r.value == caller.value
    ensures caller.None? ==> r == Err(Unauthorized)
  {
    match CheckAuth(caller)
    case Err(e) => Err(e)
    case Ok(u) =>
      match CheckOrganization(u)
      case Some(e) => Err(e)
      case None => Ok(u)
  }
}
