/**
 * The client-side route builder: a service route rendered relative to an
 * optional base URL.
 */
module RouteBuilders {
  import opened Wrappers

  /**
   * `RouteBuilder::build_route`: with a base, the base verbatim, a `/`, and
   * the route; without one, the route alone. Either way the route ends the
   * result.
   */
  function BuildRoute(base: Option<string>, route: string): (r: string)
    ensures base.None? ==> r == route
    ensures base.Some? ==> r == base.value + "/" + route
    ensures |route| <= |r| && r[|r| - |route|..] == route
  {
    match base
    case None => route
    case Some(url) => url + "/" + route
  }

  /** The base is not normalised: a trailing `/` on it is kept, giving `//`. */
  lemma TrailingSlashKept()
    ensures BuildRoute(Some("http://roles/"), "roles") == "http://roles//roles"
  {
  }

  /** Two routes built on the same base are equal only if the routes are. */
  lemma BuildRouteInjective(base: Option<string>, a: string, b: string)
    requires BuildRoute(base, a) == BuildRoute(base, b)
    ensures a == b
  {
    var r := BuildRoute(base, a);
    assert |a| == |b|;
    assert a == r[|r| - |a|..] == b;
  }
}
