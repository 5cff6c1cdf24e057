/** The route guard (middleware.ts): requests to a protected path without an auth token are sent to
    the login page; everything else passes through. */
module Middleware {
  import opened Wrappers
  import opened Text

  datatype Decision = Redirect(location: string) | Next

  const PROTECTED_ROUTES: seq<string> := ["/admin", "/admin/gov"]

  /** `protectedRoutes.some(route => pathname.startsWith(route))`. */
  function IsProtected(pathname: string): (r: bool)
    ensures r <==> exists k :: 0 <= k < |PROTECTED_ROUTES| && StartsWith(pathname, PROTECTED_ROUTES[k])
  {
    StartsWith(pathname, PROTECTED_ROUTES[0]) || StartsWith(pathname, PROTECTED_ROUTES[1])
  }

  /** `!token`: no `authToken` cookie, or one whose value is the empty string. */
  predicate MissingToken(token: Option<string>) {
    token.None? || token.value == ""
  }

  /** `middleware(request)`, the request reduced to its cookie value and path. */
  function Guard(token: Option<string>, pathname: string): (r: Decision)
    ensures r == Redirect("/login") <==> IsProtected(pathname) && MissingToken(token)
    ensures r.Redirect? ==> r.location == "/login"
    ensures r == Next <==> !IsProtected(pathname) || !MissingToken(token)
  {
    if IsProtected(pathname) && MissingToken(token) then Redirect("/login") else Next
  }

  // ---------------------------------------------------------------------------------------------
  // Properties

  /** The '/admin/gov' entry adds nothing: a path starting with it starts with '/admin'. */
  lemma GovRouteRedundant(pathname: string)
    ensures IsProtected(pathname) <==> StartsWith(pathname, "/admin")
  {
    if StartsWith(pathname, "/admin/gov") {
      assert pathname[..6] == pathname[..10][..6];
    }
  }

  /** The prefix test has no segment boundary: '/administrator' is guarded too. */
  lemma NoSegmentBoundary()
    ensures Guard(None, "/administrator") == Redirect("/login")
    ensures Guard(None, "/admin") == Redirect("/login")
    ensures Guard(None, "/admin/gov/reports") == Redirect("/login")
  {
    assert "/administrator"[..6] == "/admin";
    assert "/admin/gov/reports"[..6] == "/admin";
  }

  /** An empty cookie value counts as no token. */
  lemma EmptyTokenIsMissing(pathname: string)
    ensures Guard(Some(""), pathname) == Guard(None, pathname)
  {
  }

  /** A path outside '/admin' always passes, and any path passes with a non-empty token. */
  lemma PassThrough(token: Option<string>, pathname: string)
    ensures !StartsWith(pathname, "/admin") ==> Guard(token, pathname) == Next
    ensures token.Some? && token.value != "" ==> Guard(token, pathname) == Next
  {
    GovRouteRedundant(pathname);
  }

  /** The public pages are never redirected. */
  lemma PublicPagesPass(token: Option<string>)
    ensures Guard(token, "/") == Next && Guard(token, "/login") == Next
    ensures Guard(token, "/routing") == Next && Guard(token, "/ambulance") == Next
  {
    assert "/login"[..6][1] != "/admin"[1];
    assert "/routing"[..6][1] != "/admin"[1];
    assert "/ambulance"[..6][2] != "/admin"[2];
    PassThrough(token, "/");
    PassThrough(token, "/login");
    PassThrough(token, "/routing");
    PassThrough(token, "/ambulance");
  }
}
