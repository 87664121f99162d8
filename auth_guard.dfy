/** The guard around pages that need a session (private) and pages only for
    visitors without one (login, register). */
module AuthGuard {
  import opened Types
  import AuthStore

  /** Where the visitor was heading. */
  datatype Location = Location(pathname: string)

  /** What a guard renders: a redirect, remembering the original location
      when it goes to the login page, or the guarded page itself. */
  datatype Outcome = Redirect(to: string, from: Option<Location>) | RenderChildren

  const LoginPath: string := "/login"
  const HomePath: string := "/"

  function Decide(isPrivate: bool, isAuthenticated: bool, location: Location): (r: Outcome)
    ensures r == Redirect(LoginPath, Some(location)) <==> isPrivate && !isAuthenticated
    ensures r == Redirect(HomePath, None) <==> !isPrivate && isAuthenticated
    ensures r == RenderChildren <==> isPrivate == isAuthenticated
  {
    if isPrivate then
      if !isAuthenticated then Redirect(LoginPath, Some(location)) else RenderChildren
    else
      if isAuthenticated then Redirect(HomePath, None) else RenderChildren
  }

  /** Only the two flags choose the outcome; the location is merely carried
      along to the login page. */
  lemma OutcomeIgnoresLocation(isPrivate: bool, isAuthenticated: bool, a: Location, b: Location)
    ensures Decide(isPrivate, isAuthenticated, a).RenderChildren? == Decide(isPrivate, isAuthenticated, b).RenderChildren?
    ensures Decide(isPrivate, isAuthenticated, a).Redirect? ==>
      Decide(isPrivate, isAuthenticated, a).to == Decide(isPrivate, isAuthenticated, b).to
  {
  }

  /** With a consistent session store, a private page is shown exactly when
      the store holds both a user and a token. */
  lemma PrivatePageNeedsSession(s: AuthStore.Session, location: Location)
    requires AuthStore.Consistent(s)
    ensures Decide(true, s.isAuthenticated, location) == RenderChildren <==> s.user.Some? && s.token.Some?
  {
  }
}
