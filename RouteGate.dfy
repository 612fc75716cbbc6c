/** The route-protection gate of middleware.ts: a pure function of the request
    path and its cookies that lets the request through or redirects it to the
    login page, and the matcher that decides which paths reach the gate at all.
    The gate only tests that a session-token cookie is present and non-empty;
    the token is never decoded or verified. */
module RouteGate {
  import opened JsBuiltins

  /** Cookie name to value. */
  type Cookies = map<string, string>

  datatype GateResult = Next | Redirect(location: string)

  const ProtectedRoutes: seq<string> := ["/dashboard", "/settings", "/email-accounts"]

  const SessionCookie := "session-token"

  /** `protectedRoutes.some(route => pathname.startsWith(route))`. */
  predicate IsProtected(path: string) {
    exists i :: 0 <= i < |ProtectedRoutes| && StartsWith(path, ProtectedRoutes[i])
  }

  /** `middleware(request)`. */
  function Middleware(path: string, cookies: Cookies): (r: GateResult)
    ensures r == Next || r == Redirect("/login")
  {
    if IsProtected(path) && !Truthy(Lookup(cookies, SessionCookie)) then Redirect("/login")
    else Next
  }

  /** A path is protected iff it starts with one of the three prefixes, as raw text. */
  lemma ProtectedIffPrefix(path: string)
    ensures IsProtected(path) <==>
      StartsWith(path, "/dashboard") || StartsWith(path, "/settings") || StartsWith(path, "/email-accounts")
  {
    if StartsWith(path, "/dashboard") { assert StartsWith(path, ProtectedRoutes[0]); }
    if StartsWith(path, "/settings") { assert StartsWith(path, ProtectedRoutes[1]); }
    if StartsWith(path, "/email-accounts") { assert StartsWith(path, ProtectedRoutes[2]); }
  }

  /** The prefix test does not stop at a path segment: '/dashboardX' and
      '/settings-old' are protected, '/login' and '/' are not. */
  lemma RawPrefixExamples()
    ensures IsProtected("/dashboardX")
    ensures IsProtected("/settings-old")
    ensures !IsProtected("/login")
    ensures !IsProtected("/")
  {
    assert StartsWith("/dashboardX", ProtectedRoutes[0]);
    assert StartsWith("/settings-old", ProtectedRoutes[1]);
    ProtectedIffPrefix("/login");
    ProtectedIffPrefix("/");
  }

  /** The gate redirects iff the path is protected and the session token is
      absent or empty; it never redirects anywhere but '/login'. */
  lemma RedirectIffProtectedWithoutToken(path: string, cookies: Cookies)
    ensures Middleware(path, cookies) == Redirect("/login")
        <==> IsProtected(path) && (SessionCookie !in cookies || cookies[SessionCookie] == "")
    ensures Middleware(path, cookies) != Redirect("/login") ==> Middleware(path, cookies) == Next
  {
  }

  /** Any non-empty token passes, whatever it contains. */
  lemma AnyNonEmptyTokenPasses(path: string, cookies: Cookies, token: string)
    requires token != ""
    ensures Middleware(path, cookies[SessionCookie := token]) == Next
  {
  }

  /** Unprotected paths always pass, whatever the cookies. */
  lemma UnprotectedAlwaysPasses(path: string, cookies: Cookies)
    requires !IsProtected(path)
    ensures Middleware(path, cookies) == Next
  {
  }

  /** The outcome depends only on the path and the session-token cookie. */
  lemma OnlySessionCookieMatters(path: string, c1: Cookies, c2: Cookies)
    requires Lookup(c1, SessionCookie) == Lookup(c2, SessionCookie)
    ensures Middleware(path, c1) == Middleware(path, c2)
  {
  }

  /** The path prefixes after the leading '/' that `config.matcher` excludes
      (the negative lookahead `(?!api|_next/static|_next/image|favicon.ico)`);
      the '.' of 'favicon.ico' is a regular-expression wildcard. */
  predicate ExcludedByMatcher(rest: string) {
    || StartsWith(rest, "api")
    || StartsWith(rest, "_next/static")
    || StartsWith(rest, "_next/image")
    || (|rest| >= 11 && rest[..7] == "favicon" && rest[8..11] == "ico")
  }

  /** `config.matcher`: the path is '/' followed by text the lookahead does not exclude. */
  predicate ReachesGate(path: string) {
    |path| >= 1 && path[0] == '/' && !ExcludedByMatcher(path[1..])
  }

  /** What happens to a request: the gate runs only on paths the matcher admits. */
  function HandleRequest(path: string, cookies: Cookies): (r: GateResult)
    ensures r == Next || r == Redirect("/login")
    ensures !ReachesGate(path) ==> r == Next
  {
    if ReachesGate(path) then Middleware(path, cookies) else Next
  }

  /** Every protected path reaches the gate, so the matcher never lets a
      protected path through unchecked. */
  lemma ProtectedPathsReachGate(path: string)
    requires IsProtected(path)
    ensures ReachesGate(path)
    ensures HandleRequest(path, map[]) == Redirect("/login")
  {
    ProtectedIffPrefix(path);
    var rest := path[1..];
    if StartsWith(path, "/dashboard") {
      assert rest[0] == 'd';
    } else if StartsWith(path, "/settings") {
      assert rest[0] == 's';
    } else {
      assert rest[0] == 'e';
    }
  }

  /** A path whose text after '/' the lookahead excludes never reaches the gate
      and always passes, whatever its cookies. */
  lemma ExcludedPathsBypassGate(rest: string, cookies: Cookies)
    requires ExcludedByMatcher(rest)
    ensures !ReachesGate("/" + rest)
    ensures HandleRequest("/" + rest, cookies) == Next
  {
    assert ("/" + rest)[1..] == rest;
  }

  /** The exclusions are raw prefix tests: '/apiary' is excluded like '/api/...',
      and any character stands in for the dot of 'favicon.ico'. */
  lemma ExclusionsAreRawPrefixes(tail: string, c: char)
    ensures ExcludedByMatcher("api" + tail)
    ensures ExcludedByMatcher("_next/static" + tail)
    ensures ExcludedByMatcher("_next/image" + tail)
    ensures ExcludedByMatcher("favicon" + [c] + "ico" + tail)
  {
    assert ("api" + tail)[..3] == "api";
    assert ("_next/static" + tail)[..12] == "_next/static";
    assert ("_next/image" + tail)[..11] == "_next/image";
    var f := "favicon" + [c] + "ico" + tail;
    assert f[..7] == "favicon" && f[8..11] == "ico";
  }
}
