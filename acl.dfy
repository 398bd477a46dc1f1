/**
 * The two built-in access-control layers: `SystemACL` allows everything and
 * `UnauthorizedACL` denies everything, whatever the resource, action, scoped
 * resources and database connection.
 */
module Acls {
  import opened Wrappers

  datatype Acl = SystemACL | UnauthorizedACL

  /** `Acl::allows` for the two built-in implementations. */
  function Allows<Resource, Action, Scoped, DbConn, E>(acl: Acl, resource: Resource, action: Action, scoped: seq<Scoped>, conn: Option<DbConn>): (r: Result<bool, E>)
    ensures r.Ok?
    ensures acl == SystemACL ==> r.value
    ensures acl == UnauthorizedACL ==> !r.value
  {
    match acl
    case SystemACL => Ok(true)
    case UnauthorizedACL => Ok(false)
  }

  /** The answer depends on the layer alone: no argument changes it. */
  lemma AllowsIgnoresArguments<Resource, Action, Scoped, DbConn, E>(
    acl: Acl,
    r1: Resource, a1: Action, s1: seq<Scoped>, c1: Option<DbConn>,
    r2: Resource, a2: Action, s2: seq<Scoped>, c2: Option<DbConn>)
    ensures Allows<Resource, Action, Scoped, DbConn, E>(acl, r1, a1, s1, c1) == Allows<Resource, Action, Scoped, DbConn, E>(acl, r2, a2, s2, c2)
  {
  }
}
