/** The route guard of the Next.js frontend (frontend/middleware.ts): it
    decides, from the request's path and its session cookie, whether to
    redirect to the sign-in page, redirect to the dashboard, or let the
    request through. */
module Middleware {
  import opened Wrappers
  import Text

  datatype Decision = RedirectTo(location: string) | Pass

  const PublicRoutes: seq<string> := ["/sign-in", "/sign-up", "/"]

  /** `publicRoutes.some(route => pathname.startsWith(route))`, as written. */
  predicate IsPublicRoute(pathname: string) {
    exists k :: 0 <= k < |PublicRoutes| && Text.StartsWith(pathname, PublicRoutes[k])
  }

  /** The public-route test with the landing page matched exactly: a path is
      public when it is "/" or lies under "/sign-in" or "/sign-up". */
  predicate IsPublicRouteExact(pathname: string) {
    pathname == "/" || Text.StartsWith(pathname, "/sign-in") || Text.StartsWith(pathname, "/sign-up")
  }

  /** The value of the `better-auth.session_token` cookie, if the request has
      one, is truthy: present and not the empty string. */
  predicate HasToken(token: Option<string>) {
    token.Some? && token.value != ""
  }

  /** The decision once the path is known to be public or not. */
  function Decide(isPublic: bool, pathname: string, token: Option<string>): (d: Decision)
    ensures d == RedirectTo("/sign-in") <==> !isPublic && !HasToken(token)
    ensures d == RedirectTo("/dashboard") <==> isPublic && HasToken(token) && (pathname == "/sign-in" || pathname == "/sign-up")
    ensures d.Pass? || d == RedirectTo("/sign-in") || d == RedirectTo("/dashboard")
  {
    if !isPublic && !HasToken(token) then RedirectTo("/sign-in")
    else if isPublic && HasToken(token) && (pathname == "/sign-in" || pathname == "/sign-up") then RedirectTo("/dashboard")
    else Pass
  }

  /** `middleware` as written. Since every path starting with a slash is
      public, the sign-in redirect fires only for paths that do not. */
  function Guard(pathname: string, token: Option<string>): (d: Decision)
    ensures d == RedirectTo("/sign-in") <==> !HasToken(token) && (pathname == [] || pathname[0] != '/')
  {
    PublicIffLeadingSlash(pathname);
    Decide(IsPublicRoute(pathname), pathname, token)
  }

  /** `middleware` with the exact match for "/": a signed-out request is sent
      to the sign-in page exactly when its path is not a public one. */
  function GuardExact(pathname: string, token: Option<string>): (d: Decision)
    ensures d == RedirectTo("/sign-in") <==>
              !HasToken(token) && pathname != "/" && !Text.StartsWith(pathname, "/sign-in") && !Text.StartsWith(pathname, "/sign-up")
  {
    Decide(IsPublicRouteExact(pathname), pathname, token)
  }

  /** As written, "/" is a prefix of every path that starts with a slash, so
      every such path is public. */
  lemma PublicIffLeadingSlash(pathname: string)
    ensures IsPublicRoute(pathname) <==> |pathname| >= 1 && pathname[0] == '/'
  {
    if |pathname| >= 1 && pathname[0] == '/' {
      assert Text.StartsWith(pathname, PublicRoutes[2]);
    }
  }

  /** A signed-out visitor reaches "/dashboard" as written, and is sent to the
      sign-in page with the exact match. */
  lemma SignedOutDashboardPasses()
    ensures Guard("/dashboard", None) == Pass
    ensures GuardExact("/dashboard", None) == RedirectTo("/sign-in")
  {
    assert Text.StartsWith("/dashboard", PublicRoutes[2]);
    assert !Text.StartsWith("/dashboard", "/sign-in") by {
      assert "/dashboard"[1] != "/sign-in"[1];
    }
    assert !Text.StartsWith("/dashboard", "/sign-up") by {
      assert "/dashboard"[1] != "/sign-up"[1];
    }
  }

  /** Both versions agree on the dashboard redirect: a signed-in request for
      one of the two sign-in pages goes to the dashboard. */
  lemma DashboardRedirectAgrees(pathname: string, token: Option<string>)
    ensures Guard(pathname, token) == RedirectTo("/dashboard") <==> HasToken(token) && (pathname == "/sign-in" || pathname == "/sign-up")
    ensures GuardExact(pathname, token) == RedirectTo("/dashboard") <==> HasToken(token) && (pathname == "/sign-in" || pathname == "/sign-up")
  {
    if pathname == "/sign-in" || pathname == "/sign-up" {
      assert Text.StartsWith(pathname, pathname);
      assert Text.StartsWith(pathname, PublicRoutes[2]);
    }
  }
}
