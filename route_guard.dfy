/** The front-end middleware that guards the dashboard routes. */
module RouteGuard {

  datatype Decision = Next | Redirect(location: string)

  const ProtectedRoutes: seq<string> := ["/dashboard/pets", "/dashboard/appointments"]
  const LoginPage: string := "/auth/login"
  const Dashboard: string := "/dashboard"

  /** The decision for a request to `path`; `hasToken` says whether a cookie named
      `token` came with it. */
  function Middleware(path: string, hasToken: bool): (d: Decision)
    ensures d == Redirect(LoginPage) <==> path in ProtectedRoutes && !hasToken
    ensures d == Redirect(Dashboard) <==> path == LoginPage && hasToken
    ensures d == Next <==> !(path in ProtectedRoutes && !hasToken) && !(path == LoginPage && hasToken)
  {
    if path in ProtectedRoutes && !hasToken then Redirect(LoginPage)
    else if path == LoginPage && hasToken then Redirect(Dashboard)
    else Next
  }

  /** At most one redirect applies: the login page is not a protected route. */
  lemma RedirectsExclusive(path: string, hasToken: bool)
    ensures !(path in ProtectedRoutes && !hasToken && path == LoginPage && hasToken)
    ensures LoginPage !in ProtectedRoutes
  {
  }

  /** A redirect never leads to another redirect for the same visitor. */
  lemma NoRedirectLoop(path: string, hasToken: bool)
    requires Middleware(path, hasToken).Redirect?
    ensures Middleware(Middleware(path, hasToken).location, hasToken) == Next
  {
  }

  /** Protection is by exact path: sub-paths, a trailing slash and the profile page
      pass through without a token. */
  lemma ExactPathsOnly()
    ensures Middleware("/dashboard/pets/", false) == Next
    ensures Middleware("/dashboard/pets/1", false) == Next
    ensures Middleware("/dashboard/profile", false) == Next
  {
  }

  /** A visitor with a token is never sent to the login page, and one without is
      never sent to the dashboard. */
  lemma RedirectMatchesCookie(path: string, hasToken: bool)
    ensures hasToken ==> Middleware(path, hasToken) != Redirect(LoginPage)
    ensures !hasToken ==> Middleware(path, hasToken) != Redirect(Dashboard)
  {
  }
}
