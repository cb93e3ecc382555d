/** The edge middleware (middleware.ts): one decision per request over the
    request path and whether the request carries a session. */
module RouteGuard {
  import opened Common

  const ProtectedPrefix := "/dashboard"
  const AuthPrefix := "/auth"
  const LoginPath := "/auth/login"
  const LandingPath := "/dashboard"

  /** What the middleware answers: let the request through, or redirect to
      `location`, optionally with a `redirect` query parameter. */
  datatype Response = Next | Redirect(location: string, redirectParam: Option<string>)

  /** `middleware(req)`: an anonymous request for a protected path goes to the
      login page carrying the original path; a signed-in request for an auth
      page goes to the dashboard; everything else passes. The prefix tests
      are raw string prefixes. */
  function Middleware(pathname: string, hasSession: bool): (r: Response)
    ensures r == Redirect(LoginPath, Some(pathname)) <==> StartsWith(pathname, ProtectedPrefix) && !hasSession
    ensures r == Redirect(LandingPath, None) <==> StartsWith(pathname, AuthPrefix) && hasSession
    ensures r == Next <==> !(StartsWith(pathname, ProtectedPrefix) && !hasSession) && !(StartsWith(pathname, AuthPrefix) && hasSession)
  {
    if StartsWith(pathname, ProtectedPrefix) && !hasSession then
      Redirect(LoginPath, Some(pathname))
    else if StartsWith(pathname, AuthPrefix) && hasSession then
      Redirect(LandingPath, None)
    else
      Next
  }

  /** No path lies under both areas, so at most one redirect rule can fire. */
  lemma PrefixesDisjoint(pathname: string)
    ensures !(StartsWith(pathname, ProtectedPrefix) && StartsWith(pathname, AuthPrefix))
  {
    if StartsWith(pathname, ProtectedPrefix) {
      assert pathname[1] == ProtectedPrefix[1] == 'd';
      assert pathname[..|AuthPrefix|][1] != AuthPrefix[1];
    }
  }

  /** Following a redirect with the same session state does not redirect
      again: the middleware never loops. */
  lemma NoRedirectLoop(pathname: string, hasSession: bool)
    ensures Middleware(pathname, hasSession).Redirect? ==>
              Middleware(Middleware(pathname, hasSession).location, hasSession) == Next
  {
    if Middleware(pathname, hasSession).Redirect? {
      if hasSession {
        PrefixesDisjoint(LandingPath);
        assert StartsWith(LandingPath, ProtectedPrefix);
      } else {
        PrefixesDisjoint(LoginPath);
        assert StartsWith(LoginPath, AuthPrefix);
      }
    }
  }

  /** The redirect rules are decided by the prefix alone: whatever follows
      "/dashboard" (even "/dashboardX", which is no sub-path) is protected. */
  lemma ProtectedByRawPrefix(suffix: string)
    ensures Middleware(ProtectedPrefix + suffix, false) == Redirect(LoginPath, Some(ProtectedPrefix + suffix))
    ensures Middleware(ProtectedPrefix + suffix, true) == Next
  {
    assert (ProtectedPrefix + suffix)[..|ProtectedPrefix|] == ProtectedPrefix;
    PrefixesDisjoint(ProtectedPrefix + suffix);
  }

  /** The route matcher `["/dashboard/:path*", "/auth/:path*"]`: the area's
      root itself, or a path below it. */
  predicate Matched(pathname: string) {
    pathname == ProtectedPrefix || StartsWith(pathname, ProtectedPrefix + "/")
    || pathname == AuthPrefix || StartsWith(pathname, AuthPrefix + "/")
  }

  /** What a request experiences: the middleware runs only on matched paths. */
  function Handle(pathname: string, hasSession: bool): (r: Response)
    ensures Matched(pathname) ==> r == Middleware(pathname, hasSession)
    ensures !Matched(pathname) ==> r == Next
  {
    if Matched(pathname) then Middleware(pathname, hasSession) else Next
  }

  /** The matcher and the prefix tests agree on matched paths, but a path
      that only shares the raw prefix ("/dashboardX") never reaches the
      middleware and is served without a session. */
  lemma MatcherNarrowsProtection()
    ensures Middleware("/dashboardX", false).Redirect?
    ensures Handle("/dashboardX", false) == Next
  {
    ProtectedByRawPrefix("X");
    assert "/dashboardX" == ProtectedPrefix + "X";
    assert !StartsWith("/dashboardX", ProtectedPrefix + "/") by {
      assert "/dashboardX"[10] == 'X';
      assert (ProtectedPrefix + "/")[10] == '/';
    }
    assert !StartsWith("/dashboardX", AuthPrefix + "/") by {
      assert "/dashboardX"[1] != (AuthPrefix + "/")[1];
    }
  }

  /** Every matched protected path is guarded: anonymous requests are sent to
      the login page with the path as return target, signed-in ones pass. */
  lemma MatchedProtectedPathsGuarded(pathname: string, hasSession: bool)
    requires pathname == ProtectedPrefix || StartsWith(pathname, ProtectedPrefix + "/")
    ensures !hasSession ==> Handle(pathname, hasSession) == Redirect(LoginPath, Some(pathname))
    ensures hasSession ==> Handle(pathname, hasSession) == Next
  {
    assert pathname[..|ProtectedPrefix|] == ProtectedPrefix by {
      if pathname != ProtectedPrefix {
        assert pathname[..|ProtectedPrefix|] == pathname[..|ProtectedPrefix + "/"|][..|ProtectedPrefix|];
      }
    }
    PrefixesDisjoint(pathname);
  }
}
