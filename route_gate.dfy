/** The web app's edge middleware: a total decision on whether the request
    is signed in and which path it asks for. Signed-in users are sent away
    from the sign-in and sign-up pages, signed-out users away from the
    protected pages; everything else passes through. */
module RouteGate {
  import opened Wrappers
  import opened Strings

  const ProtectedRoutes: seq<string> := ["/dashboard", "/profile", "/settings"]
  const AuthRoutes: seq<string> := ["/sign-in", "/sign-up"]

  const DashboardUrl := "/dashboard"
  const SignInCallbackUrl := "/sign-in?callbackUrl="

  datatype Decision = Redirect(location: string) | Next

  /** `routes.some((route) => pathname.startsWith(route))` */
  predicate AnyPrefix(pathname: string, routes: seq<string>) {
    exists i :: 0 <= i < |routes| && StartsWith(pathname, routes[i])
  }

  predicate IsProtectedRoute(pathname: string) {
    AnyPrefix(pathname, ProtectedRoutes)
  }

  predicate IsAuthRoute(pathname: string) {
    AnyPrefix(pathname, AuthRoutes)
  }

  /** `middleware(request)` once `getToken` has said whether there is a session. */
  function Gate(isAuthenticated: bool, pathname: string): (d: Decision)
    ensures d.Redirect? ==>
      || (isAuthenticated && IsAuthRoute(pathname) && d.location == DashboardUrl)
      || (!isAuthenticated && IsProtectedRoute(pathname) && d.location == SignInCallbackUrl + pathname)
    ensures d.Next? <==>
      (if isAuthenticated then !IsAuthRoute(pathname) else !IsProtectedRoute(pathname))
  {
    if isAuthenticated && IsAuthRoute(pathname) then Redirect(DashboardUrl)
    else if !isAuthenticated && IsProtectedRoute(pathname) then Redirect(SignInCallbackUrl + pathname)
    else Next
  }

  /** No path is both protected and an authentication page. */
  lemma ProtectedAndAuthAreDisjoint(pathname: string)
    ensures !(IsProtectedRoute(pathname) && IsAuthRoute(pathname))
  {
    if IsAuthRoute(pathname) {
      var k :| 0 <= k < |AuthRoutes| && StartsWith(pathname, AuthRoutes[k]);
      assert pathname[2] == AuthRoutes[k][2] == 'i';
      forall i | 0 <= i < |ProtectedRoutes| ensures !StartsWith(pathname, ProtectedRoutes[i]) {
        assert ProtectedRoutes[i][2] != 'i';
      }
    }
  }

  /** Signed in, on `/sign-in…` or `/sign-up…`: sent to `/dashboard`. */
  lemma SignedInLeavesAuthPages(pathname: string)
    requires IsAuthRoute(pathname)
    ensures Gate(true, pathname) == Redirect(DashboardUrl)
  {
  }

  /** Signed out, on a protected page: sent to the sign-in page with the
      pathname appended verbatim, without any encoding. */
  lemma SignedOutLeavesProtectedPages(pathname: string)
    requires IsProtectedRoute(pathname)
    ensures Gate(false, pathname) == Redirect(SignInCallbackUrl + pathname)
  {
  }

  /** Signed in on a protected page, or signed out on an authentication page:
      the request passes. */
  lemma MatchingStatePasses(pathname: string)
    ensures IsProtectedRoute(pathname) ==> Gate(true, pathname) == Next
    ensures IsAuthRoute(pathname) ==> Gate(false, pathname) == Next
  {
    ProtectedAndAuthAreDisjoint(pathname);
  }

  /** A path under neither list passes whatever the session state. */
  lemma UnlistedPathPasses(isAuthenticated: bool, pathname: string)
    requires !IsProtectedRoute(pathname) && !IsAuthRoute(pathname)
    ensures Gate(isAuthenticated, pathname) == Next
  {
  }

  /** The test is a raw string prefix: `/dashboards` and `/profile-x` count as
      protected, and `/sign-inx` as an authentication page. */
  lemma PrefixIsRaw()
    ensures IsProtectedRoute("/dashboards") && IsProtectedRoute("/profile-x")
    ensures IsAuthRoute("/sign-inx")
    ensures !IsProtectedRoute("/dash") && !IsProtectedRoute("/Dashboard")
  {
    assert StartsWith("/dashboards", ProtectedRoutes[0]);
    assert StartsWith("/profile-x", ProtectedRoutes[1]);
    assert StartsWith("/sign-inx", AuthRoutes[0]);
    forall i | 0 <= i < |ProtectedRoutes| ensures !StartsWith("/Dashboard", ProtectedRoutes[i]) {
      assert "/Dashboard"[1] != ProtectedRoutes[i][1];
    }
  }

  /** The pathname of a same-origin URL: everything before the first `?`. */
  function PathOf(url: string): string {
    match FirstOccurrence(url, "?", 0)
    case None => url
    case Some(i) => url[..i]
  }

  lemma SignInTargetPath(pathname: string)
    ensures PathOf(SignInCallbackUrl + pathname) == "/sign-in"
  {
    var u := SignInCallbackUrl + pathname;
    assert u[8..9] == "?";
    assert OccursAt(u, "?", 8);
    forall j | 0 <= j < 8 ensures !OccursAt(u, "?", j) {
      assert u[j] == SignInCallbackUrl[j];
    }
    assert FirstOccurrence(u, "?", 0) == Some(8);
  }

  /** No redirect loop: the page a redirect leads to, requested in the same
      session state, passes through. */
  lemma NoRedirectLoop(isAuthenticated: bool, pathname: string)
    requires Gate(isAuthenticated, pathname).Redirect?
    ensures Gate(isAuthenticated, PathOf(Gate(isAuthenticated, pathname).location)) == Next
  {
    if isAuthenticated {
      assert PathOf(DashboardUrl) == DashboardUrl by {
        assert FirstOccurrence(DashboardUrl, "?", 0).None? by {
          forall j: nat | j < |DashboardUrl| ensures !OccursAt(DashboardUrl, "?", j) {
            assert DashboardUrl[j..j + 1][0] == DashboardUrl[j];
            assert '?' !in DashboardUrl;
          }
        }
      }
      assert !IsAuthRoute(DashboardUrl) by {
        forall k | 0 <= k < |AuthRoutes| ensures !StartsWith(DashboardUrl, AuthRoutes[k]) {
          assert DashboardUrl[1] != AuthRoutes[k][1];
        }
      }
    } else {
      SignInTargetPath(pathname);
      assert IsAuthRoute("/sign-in") by { assert StartsWith("/sign-in", AuthRoutes[0]); }
      ProtectedAndAuthAreDisjoint("/sign-in");
    }
  }

  /** The `matcher` config: `/<route>/:path*` matches the route itself and
      anything below it. */
  predicate MatcherSelects(pathname: string) {
    exists i :: 0 <= i < |ProtectedRoutes + AuthRoutes| &&
      (pathname == (ProtectedRoutes + AuthRoutes)[i] || StartsWith(pathname, (ProtectedRoutes + AuthRoutes)[i] + "/"))
  }

  /** The middleware as deployed: paths the matcher does not select never
      reach it. */
  function Middleware(isAuthenticated: bool, pathname: string): (d: Decision)
    ensures !MatcherSelects(pathname) ==> d == Next
    ensures MatcherSelects(pathname) ==> d == Gate(isAuthenticated, pathname)
    ensures d.Redirect? ==> Gate(isAuthenticated, pathname) == d
  {
    if MatcherSelects(pathname) then Gate(isAuthenticated, pathname) else Next
  }

  /** Behind the matcher there is still no redirect loop: the page a redirect
      leads to passes. */
  lemma DeployedNoRedirectLoop(isAuthenticated: bool, pathname: string)
    requires Middleware(isAuthenticated, pathname).Redirect?
    ensures Middleware(isAuthenticated, PathOf(Middleware(isAuthenticated, pathname).location)) == Next
  {
    NoRedirectLoop(isAuthenticated, pathname);
  }

  /** The matcher is narrower than the gate's prefix test: `/dashboards`
      starts with `/dashboard`, so the gate alone would send a signed-out
      visitor to the sign-in page, but the matcher never hands it over. */
  lemma UnmatchedPrefixIsNotGated()
    ensures Gate(false, "/dashboards").Redirect?
    ensures Middleware(false, "/dashboards") == Next
  {
    assert StartsWith("/dashboards", ProtectedRoutes[0]);
    assert !MatcherSelects("/dashboards") by {
      forall i | 0 <= i < |ProtectedRoutes + AuthRoutes|
        ensures "/dashboards" != (ProtectedRoutes + AuthRoutes)[i]
        ensures !StartsWith("/dashboards", (ProtectedRoutes + AuthRoutes)[i] + "/")
      {
        var r := (ProtectedRoutes + AuthRoutes)[i];
        if i == 0 {
          assert ("/dashboards")[10] != (r + "/")[10];
        } else {
          assert ("/dashboards")[1] != r[1];
        }
      }
    }
  }

  /** Every path the matcher selects is classified by one of the two lists,
      so under the matcher `/dashboards` never reaches the gate while
      `/dashboard/x` does. */
  lemma MatcherSelectsOnlyListedPaths(pathname: string)
    requires MatcherSelects(pathname)
    ensures IsProtectedRoute(pathname) || IsAuthRoute(pathname)
  {
  }
}
