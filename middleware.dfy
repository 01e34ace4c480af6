/** The route guard (src/middleware.ts): from the request path and whether a
    session exists, a redirect or "continue". */
module Middleware {

  /** The path prefixes that need a session. */
  const PROTECTED_ROUTES: seq<string> := ["/reader", "/library", "/history", "/settings"]

  predicate StartsWith(s: string, prefix: string) {
    |prefix| <= |s| && s[..|prefix|] == prefix
  }

  /** `protectedRoutes.some(route => path.startsWith(route))` */
  predicate IsProtected(path: string) {
    exists i :: 0 <= i < |PROTECTED_ROUTES| && StartsWith(path, PROTECTED_ROUTES[i])
  }

  predicate IsAuthRoute(path: string) {
    path == "/auth" || path == "/signin" || path == "/signup"
  }

  /** What the guard answers: a redirect to `/auth?redirect=<path>`, a redirect
      to `/reader`, or `NextResponse.next()`. */
  datatype Decision = RedirectToAuth(redirect: string) | RedirectToReader | Continue

  function Route(path: string, isLoggedIn: bool): (d: Decision)
    ensures d.RedirectToAuth? ==> d.redirect == path
  {
    if IsProtected(path) && !isLoggedIn then RedirectToAuth(path)
    else if IsAuthRoute(path) && isLoggedIn then RedirectToReader
    else if path == "/" && isLoggedIn then RedirectToReader
    else Continue
  }

  /** The protected test is a prefix test against the four routes, written out. */
  lemma IsProtectedIffPrefix(path: string)
    ensures IsProtected(path) <==>
              StartsWith(path, "/reader") || StartsWith(path, "/library")
              || StartsWith(path, "/history") || StartsWith(path, "/settings")
  {
    if StartsWith(path, "/reader") { assert StartsWith(path, PROTECTED_ROUTES[0]); }
    if StartsWith(path, "/library") { assert StartsWith(path, PROTECTED_ROUTES[1]); }
    if StartsWith(path, "/history") { assert StartsWith(path, PROTECTED_ROUTES[2]); }
    if StartsWith(path, "/settings") { assert StartsWith(path, PROTECTED_ROUTES[3]); }
  }

  /** Because the test is on prefixes, a path such as "/readers" is protected too. */
  lemma PrefixMatchesLongerPaths()
    ensures IsProtected("/readers") && IsProtected("/history/2024")
  {
    assert StartsWith("/readers", PROTECTED_ROUTES[0]);
    assert StartsWith("/history/2024", PROTECTED_ROUTES[2]);
  }

  /** Without a session, exactly the protected paths are sent to sign in, carrying the path. */
  lemma LoggedOutRouting(path: string)
    ensures Route(path, false) == (if IsProtected(path) then RedirectToAuth(path) else Continue)
  {
  }

  /** With a session, exactly the sign-in pages and the landing page are sent to the reader. */
  lemma LoggedInRouting(path: string)
    ensures Route(path, true) == RedirectToReader <==> IsAuthRoute(path) || path == "/"
    ensures Route(path, true) != RedirectToReader ==> Route(path, true) == Continue
  {
  }

  /** A signed-in user is never sent to sign in, and a signed-out user never to the reader. */
  lemma NoWrongRedirect(path: string)
    ensures !Route(path, true).RedirectToAuth?
    ensures Route(path, false) != RedirectToReader
  {
  }
}
