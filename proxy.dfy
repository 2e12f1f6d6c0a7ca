/**
 * The request proxy: public routes pass; any other route needs a session
 * and sends a visitor without one to the sign-in page.
 */
module Proxy {
  const PUBLIC_ROUTES: seq<string> := ["/sign-in", "/sign-up", "/api/auth"]
  const SIGN_IN: string := "/sign-in"

  predicate StartsWith(s: string, prefix: string) {
    |prefix| <= |s| && s[..|prefix|] == prefix
  }

  /** `pathname === "/" || publicRoutes.some(route => pathname.startsWith(route))`. */
  predicate IsPublic(pathname: string) {
    pathname == "/" || exists i :: 0 <= i < |PUBLIC_ROUTES| && StartsWith(pathname, PUBLIC_ROUTES[i])
  }

  /** The three prefixes, written out: matching is by prefix, not by path segment. */
  lemma PublicRoutes(pathname: string)
    ensures IsPublic(pathname) <==>
              pathname == "/" || StartsWith(pathname, "/sign-in") || StartsWith(pathname, "/sign-up")
              || StartsWith(pathname, "/api/auth")
  {
    if StartsWith(pathname, "/sign-in") { assert StartsWith(pathname, PUBLIC_ROUTES[0]); }
    if StartsWith(pathname, "/sign-up") { assert StartsWith(pathname, PUBLIC_ROUTES[1]); }
    if StartsWith(pathname, "/api/auth") { assert StartsWith(pathname, PUBLIC_ROUTES[2]); }
  }

  /** Anything written after a public prefix stays public ("/sign-inx", "/api/authority"): no segment boundary is required. */
  lemma PrefixNotSegment(suffix: string)
    ensures IsPublic("/sign-in" + suffix) && IsPublic("/sign-up" + suffix) && IsPublic("/api/auth" + suffix)
  {
    assert StartsWith("/sign-in" + suffix, PUBLIC_ROUTES[0]);
    assert StartsWith("/sign-up" + suffix, PUBLIC_ROUTES[1]);
    assert StartsWith("/api/auth" + suffix, PUBLIC_ROUTES[2]);
  }

  datatype Decision = Next | Redirect(location: string)

  /**
   * The proxy's answer. `session` is consulted only for a non-public path:
   * it is the session lookup's result, which the proxy requests only there.
   */
  function Decide(pathname: string, session: bool): (d: Decision)
    ensures IsPublic(pathname) ==> d == Next
    ensures !IsPublic(pathname) && !session ==> d == Redirect(SIGN_IN)
    ensures !IsPublic(pathname) && session ==> d == Next
    ensures d.Redirect? <==> !IsPublic(pathname) && !session
  {
    if IsPublic(pathname) then Next
    else if !session then Redirect(SIGN_IN)
    else Next
  }

  /** A public path's answer does not depend on the session. */
  lemma PublicIgnoresSession(pathname: string)
    requires IsPublic(pathname)
    ensures Decide(pathname, true) == Decide(pathname, false) == Next
  {
  }
}
