/** The guard in front of every signed-in route. */
module PrivateRoute {
  import opened Types

  datatype Outcome = Spinner | Redirect(to: Route) | Outlet

  /** The decision, with `requireAdmin` defaulting to false. */
  function Decide(isAuthenticated: bool, isAdmin: bool, loading: bool, requireAdmin: bool := false): (r: Outcome)
    ensures loading ==> r == Spinner
    // The admin check comes before the authentication check.
    ensures r == Redirect(UnauthorizedPage) <==> !loading && requireAdmin && !isAdmin
    ensures r == Redirect(LoginPage) <==> !loading && !(requireAdmin && !isAdmin) && !isAuthenticated
    ensures r == Outlet <==> !loading && isAuthenticated && (isAdmin || !requireAdmin)
    ensures r.Redirect? ==> r.to == UnauthorizedPage || r.to == LoginPage
  {
    if loading then Spinner
    else if requireAdmin && !isAdmin then Redirect(UnauthorizedPage)
    else if !isAuthenticated then Redirect(LoginPage)
    else Outlet
  }
}
