/** The guard around the admin page: a session is required first, then the
    admin role; a signed-in non-admin is sent to the dashboard with an
    access-denied notice. */
module AdminGuard {
  import opened Types
  import AuthGuard

  const DashboardPath: string := "/dashboard"

  /** The route rendered, and whether the access-denied notice is raised. */
  datatype AdminOutcome = AdminOutcome(route: AuthGuard.Outcome, accessDenied: bool)

  predicate IsAdmin(user: Option<User>)
  {
    user.Some? && user.value.role == AdminRole
  }

  function DecideAdmin(isAuthenticated: bool, user: Option<User>, location: AuthGuard.Location): (r: AdminOutcome)
    ensures !isAuthenticated ==> r == AdminOutcome(AuthGuard.Redirect(AuthGuard.LoginPath, Some(location)), false)
    ensures isAuthenticated && !IsAdmin(user) ==> r == AdminOutcome(AuthGuard.Redirect(DashboardPath, None), true)
    ensures r.route == AuthGuard.RenderChildren <==> isAuthenticated && IsAdmin(user)
    ensures r.accessDenied <==> isAuthenticated && !IsAdmin(user)
  {
    if !isAuthenticated then
      AdminOutcome(AuthGuard.Redirect(AuthGuard.LoginPath, Some(location)), false)
    else if !IsAdmin(user) then
      AdminOutcome(AuthGuard.Redirect(DashboardPath, None), true)
    else
      AdminOutcome(AuthGuard.RenderChildren, false)
  }

  /** The session check comes first: without a session the user's role,
      even an admin's left in the store, makes no difference. */
  lemma SessionCheckFirst(a: Option<User>, b: Option<User>, location: AuthGuard.Location)
    ensures DecideAdmin(false, a, location) == DecideAdmin(false, b, location)
    ensures DecideAdmin(false, a, location) == AdminOutcome(AuthGuard.Decide(true, false, location), false)
  {
  }

  /** The admin guard is stricter than the private-page guard: whatever it
      shows, a private page would show too. */
  lemma AdminImpliesPrivate(isAuthenticated: bool, user: Option<User>, location: AuthGuard.Location)
    ensures DecideAdmin(isAuthenticated, user, location).route == AuthGuard.RenderChildren ==>
      AuthGuard.Decide(true, isAuthenticated, location) == AuthGuard.RenderChildren
  {
  }
}
