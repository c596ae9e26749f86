/** The request guard that runs before every page: send signed-out visitors of the protected
    areas to the login page and signed-in visitors of the login page to the dashboard. Two
    variants exist: the middleware (with a development-mode bypass, no error handling) and the
    proxy (no bypass, any failure lets the request through). */
module RouteGuard {
  import opened Text

  datatype Outcome = PassThrough | Redirect(location: string) | Crash

  /** What the session lookup produced: a session or none, or an exception. */
  datatype SessionLookup = LookupOk(hasSession: bool) | LookupThrew

  /** `process.env.NODE_ENV === 'development'`. */
  predicate IsDemoMode(nodeEnv: string)
  {
    nodeEnv == "development"
  }

  predicate IsProtected(path: string)
  {
    StartsWith(path, "/dashboard") || StartsWith(path, "/focus") || StartsWith(path, "/settings")
  }

  /** The redirect decision shared by both variants. */
  function Decide(hasSession: bool, path: string, demo: bool): (r: Outcome)
    ensures r == Redirect("/login") <==> !demo && !hasSession && IsProtected(path)
    ensures r == Redirect("/dashboard") <==> hasSession && path == "/login"
    ensures r == PassThrough <==>
            !(!demo && !hasSession && IsProtected(path)) && !(hasSession && path == "/login")
    ensures r != Crash
  {
    if !demo && !hasSession && IsProtected(path) then Redirect("/login")
    else if hasSession && path == "/login" then Redirect("/dashboard")
    else PassThrough
  }

  /** `middleware(request)`: an exception from the session lookup is not caught. */
  function Middleware(lookup: SessionLookup, path: string, nodeEnv: string): (r: Outcome)
    ensures r == Crash <==> lookup.LookupThrew?
    ensures IsDemoMode(nodeEnv) ==> r != Redirect("/login")
    ensures lookup == LookupOk(true) && path == "/login" ==> r == Redirect("/dashboard")
    ensures lookup == LookupOk(false) && !IsDemoMode(nodeEnv) && IsProtected(path) ==>
            r == Redirect("/login")
  {
    match lookup
    case LookupThrew => Crash
    case LookupOk(s) => Decide(s, path, IsDemoMode(nodeEnv))
  }

  /** `proxy(request)`: the same decision without the bypass, inside a `try` whose `catch`
      returns the pass-through response. */
  function Proxy(lookup: SessionLookup, path: string): (r: Outcome)
    ensures r != Crash
    ensures lookup.LookupThrew? ==> r == PassThrough
  {
    match lookup
    case LookupThrew => PassThrough
    case LookupOk(s) => Decide(s, path, false)
  }

  /** The paths the guard is configured to run on: `/((?!_next/static|_next/image|favicon.ico).*)`.
      The `.` in `favicon.ico` is a regular-expression wildcard. */
  predicate MatcherSelects(path: string)
    ensures IsProtected(path) || path == "/login" ==> MatcherSelects(path)
    ensures MatcherSelects(path) ==> !StartsWith(path, "/_next/static") && !StartsWith(path, "/_next/image")
  {
    if |path| >= 1 then
      TailExcluded(path);
      path[0] == '/' && !Excluded(path[1..])
    else false
  }

  /** What is left behind the leading '/' of a page the guard protects, or of the login page,
      is never excluded; that of a `_next` asset always is. */
  lemma TailExcluded(path: string)
    requires |path| >= 1
    ensures IsProtected(path) || path == "/login" ==> !Excluded(path[1..])
    ensures StartsWith(path, "/_next/static") || StartsWith(path, "/_next/image") ==> Excluded(path[1..])
  {
    var rest := path[1..];
    if StartsWith(path, "/_next/static") {
      assert rest[..12] == path[..13][1..];
    }
    if StartsWith(path, "/_next/image") {
      assert rest[..11] == path[..12][1..];
    }
    if Excluded(rest) {
      assert rest[0] == path[1];
      if rest[..5] == "_next" {
        assert rest[..5][0] == '_';
      } else {
        assert rest[..7][1] == 'a';
        assert path[2] == 'a';
      }
      assert path[..6] != "/focus" by { assert path[..6][2] == path[2]; }
      assert path[..10] != "/dashboard" by { assert path[..10][1] == path[1]; }
      assert path[..9] != "/settings" by { assert path[..9][1] == path[1]; }
    }
  }

  /** The excluded remainders all begin with `_next` or `favicon`. */
  predicate Excluded(rest: string)
    ensures Excluded(rest) ==> |rest| >= 11 && (rest[..5] == "_next" || rest[..7] == "favicon")
    ensures StartsWith(rest, "_next/static") || StartsWith(rest, "_next/image") ==> Excluded(rest)
  {
    StartsWith(rest, "_next/static") || StartsWith(rest, "_next/image")
    || (|rest| >= 11 && rest[..7] == "favicon" && rest[8..11] == "ico")
  }

  /** What happens to a request under the middleware: passed through untouched when the
      matcher does not select its path. */
  function RunMiddleware(lookup: SessionLookup, path: string, nodeEnv: string): (r: Outcome)
    ensures !MatcherSelects(path) ==> r == PassThrough
  {
    if MatcherSelects(path) then Middleware(lookup, path, nodeEnv) else PassThrough
  }

  /** The same for the proxy; it never fails the request. */
  function RunProxy(lookup: SessionLookup, path: string): (r: Outcome)
    ensures !MatcherSelects(path) ==> r == PassThrough
    ensures r != Crash
  {
    if MatcherSelects(path) then Proxy(lookup, path) else PassThrough
  }

  /** In development mode the middleware never sends anyone to the login page, whatever the
      path, while a signed-in visit to `/login` is still redirected. */
  lemma DemoBypass(lookup: SessionLookup, path: string)
    ensures RunMiddleware(lookup, path, "development") != Redirect("/login")
    ensures lookup == LookupOk(true) && path == "/login" ==>
            RunMiddleware(lookup, path, "development") == Redirect("/dashboard")
  {
  }

  /** Outside development mode, with the lookup succeeding, the two variants agree. */
  lemma ProxyAgreesWithMiddleware(hasSession: bool, path: string, nodeEnv: string)
    requires !IsDemoMode(nodeEnv)
    ensures RunProxy(LookupOk(hasSession), path) == RunMiddleware(LookupOk(hasSession), path, nodeEnv)
  {
  }

  /** A failing lookup crashes the middleware but lets the request through the proxy. */
  lemma LookupFailure(path: string, nodeEnv: string)
    requires MatcherSelects(path)
    ensures RunMiddleware(LookupThrew, path, nodeEnv) == Crash
    ensures RunProxy(LookupThrew, path) == PassThrough
  {
  }

  /** The two redirects never compete: one needs a session, the other its absence. */
  lemma RedirectsExclusive(hasSession: bool, path: string, demo: bool)
    ensures Decide(hasSession, path, demo).Redirect? ==>
            (Decide(hasSession, path, demo).location == "/login") != hasSession
  {
  }

  /** Matching is by prefix: `/focusroom` is protected and `/login/x` is not the login page. */
  lemma PrefixMatching()
    ensures Decide(false, "/focusroom", false) == Redirect("/login")
    ensures Decide(true, "/login/x", false) == PassThrough
    ensures Decide(false, "/login", false) == PassThrough
    ensures Decide(true, "/dashboard", false) == PassThrough
  {
    assert "/focusroom"[..6] == "/focus";
    assert "/login"[..6][1] != "/focus"[1];
    assert "/login/x"[..6][1] != "/focus"[1];
    assert "/login/x"[..8][1] != "/dashboard"[1];
  }

  /** Static assets and the icon bypass the guard; pages do not. */
  lemma MatcherExamples()
    ensures !MatcherSelects("/_next/static/chunk.js")
    ensures !MatcherSelects("/_next/image")
    ensures !MatcherSelects("/favicon.ico")
    ensures MatcherSelects("/dashboard")
    ensures MatcherSelects("/login")
  {
    assert "/_next/static/chunk.js"[1..][..12] == "_next/static";
    assert "/_next/image"[1..][..11] == "_next/image";
    assert "/favicon.ico"[1..][..7] == "favicon";
    assert "/favicon.ico"[1..][8..11] == "ico";
    assert "/dashboard"[1..][..7][0] != "favicon"[0];
    assert "/login"[1..] == "login";
  }
}
