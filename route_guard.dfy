/**
 * `ProtectedRoute`: what a guarded route renders, decided from the session
 * store's `loading`, its user, and an optional required role.
 */
module RouteGuard {
  import opened Common
  import Auth

  datatype Decision = Loading | RedirectLogin | RedirectUnauthorized | Allow

  const UnauthorizedPath := "/unauthorized"

  /** The role the reports route requires. */
  const ReportsRole := Auth.OwnerRole

  /**
   * The chain of checks in the order loading, authentication, role. A
   * required role is in force only when truthy (a given, non-empty string).
   */
  function Decide(loading: bool, user: Option<Auth.User>, requiredRole: Option<string>): (d: Decision)
    ensures d == Loading <==> loading
    ensures d == RedirectLogin <==> !loading && user.None?
    ensures d == RedirectUnauthorized <==>
              !loading && user.Some? && Present(requiredRole) && user.value.role != requiredRole.value
    ensures d == Allow <==>
              !loading && user.Some? && (!Present(requiredRole) || user.value.role == requiredRole.value)
  {
    if loading then Loading
    else if user.None? then RedirectLogin
    else if Present(requiredRole) && user.value.role != requiredRole.value then RedirectUnauthorized
    else Allow
  }

  function DecideFor(s: Auth.Session, requiredRole: Option<string>): Decision
  {
    Decide(s.loading, s.user, requiredRole)
  }

  /** The navigation target of a redirect. */
  function Target(d: Decision): (r: Option<string>)
    ensures r.Some? <==> d == RedirectLogin || d == RedirectUnauthorized
    ensures d == RedirectLogin ==> r == Some(Auth.LoginPath)
    ensures d == RedirectUnauthorized ==> r == Some(UnauthorizedPath)
  {
    match d
    case RedirectLogin => Some(Auth.LoginPath)
    case RedirectUnauthorized => Some(UnauthorizedPath)
    case _ => None
  }

  /** Without a required role the guard allows exactly the authenticated sessions. */
  lemma AllowIffAuthenticated(s: Auth.Session)
    requires !s.loading
    ensures DecideFor(s, None) == Allow <==> s.IsAuthenticated()
  {
  }

  /** An authenticated session with another role than the one required is turned away. */
  lemma WrongRoleIsUnauthorized(s: Auth.Session, requiredRole: string)
    requires !s.loading && s.IsAuthenticated() && requiredRole != "" && requiredRole != s.user.value.role
    ensures DecideFor(s, Some(requiredRole)) == RedirectUnauthorized
  {
  }

  /** After the mock login, the owner may open the reports route and is no cashier. */
  lemma OwnerLoginScenario(s: Auth.Session)
    ensures var after := Auth.Login(s, "admin", "password");
            DecideFor(after, Some(ReportsRole)) == Allow
            && DecideFor(after, Some(Auth.CashierRole)) == RedirectUnauthorized
            && DecideFor(after, None) == Allow
  {
  }

  /** A session restored from a stored token comes back as a cashier, who may not open reports. */
  lemma RestoredSessionLosesReports(stored: Option<string>)
    requires Present(stored)
    ensures var s := Auth.ResolveRestore(Auth.StartRestore(Auth.Initial(stored)), true);
            DecideFor(s, Some(ReportsRole)) == RedirectUnauthorized
            && DecideFor(s, None) == Allow
  {
  }

  /** While the store is loading, nothing is redirected, whatever the user and role. */
  lemma StartupShowsPlaceholder(stored: Option<string>, requiredRole: Option<string>)
    requires Present(stored)
    ensures DecideFor(Auth.StartRestore(Auth.Initial(stored)), requiredRole) == Loading
  {
  }
}
