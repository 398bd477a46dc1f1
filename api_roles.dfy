/**
 * The routes of the roles service, as the client renders them.
 */
module RolesRoutes {
  import opened Text

  /** `stq_roles::routing::Route`; a role entry id is carried as its display text. */
  datatype Route =
    | Roles
    | RoleById(entryId: string)
    | RolesByUserId(userId: Int32)

  /** `Route::route`: relative paths under `roles`, never starting with `/`. */
  function RouteText(r: Route): (s: string)
    ensures StartsWith(s, "roles") && s[0] != '/'
    ensures r.RoleById? ==> StartsWith(s, "roles/by-id/") && s[12..] == r.entryId
    ensures r.RolesByUserId? ==> StartsWith(s, "roles/by-user-id/") && s[17..] == IntToString(r.userId)
  {
    match r
    case Roles => "roles"
    case RoleById(id) => "roles/by-id/" + id
    case RolesByUserId(u) => "roles/by-user-id/" + IntToString(u)
  }

  /** Distinct routes render as distinct paths. */
  lemma RouteTextInjective(a: Route, b: Route)
    requires RouteText(a) == RouteText(b)
    ensures a == b
  {
    var s := RouteText(a);
    if a.Roles? || b.Roles? {
      assert |s| == 5;
    } else if a.RoleById? && b.RoleById? {
    } else if a.RolesByUserId? && b.RolesByUserId? {
      IntToStringInjective(a.userId, b.userId);
    } else if a.RoleById? {
      ByIdDiffersFromByUser(a.entryId, b.userId);
    } else {
      ByIdDiffersFromByUser(b.entryId, a.userId);
    }
  }

  lemma ByIdDiffersFromByUser(id: string, u: Int32)
    ensures RouteText(RoleById(id)) != RouteText(RolesByUserId(u))
  {
    assert RouteText(RoleById(id))[9] == 'i';
    assert RouteText(RolesByUserId(u))[9] == 'u';
  }
}
