/**
 * `ProtectedRoute`: given the session's `isLoading` and `isAuthenticated`
 * flags, the effect decides where (if anywhere) to redirect, and the render
 * decides between the spinner and the wrapped children.
 */
module RouteGuard {
  import opened Wrappers
  import opened AuthTypes

  const DefaultRedirect := "/auth/login"
  const SignedInHome := "/dashboard"

  /** The optional props; `None` is a prop left `undefined`, which takes its default. */
  datatype GuardProps = GuardProps(requireAuth: Option<bool>, redirectTo: Option<string>)

  /** `requireAuth = true`. */
  function RequireAuth(props: GuardProps): (r: bool)
    ensures props.requireAuth.None? ==> r
    ensures props.requireAuth.Some? ==> r == props.requireAuth.value
  {
    match props.requireAuth
    case None => true
    case Some(b) => b
  }

  /** `redirectTo = '/auth/login'`. */
  function RedirectTo(props: GuardProps): (r: string)
    ensures props.redirectTo.None? ==> r == DefaultRedirect
    ensures props.redirectTo.Some? ==> r == props.redirectTo.value
  {
    match props.redirectTo
    case None => DefaultRedirect
    case Some(path) => path
  }

  /** The target the effect passes to `router.replace`, or `None` when it does not redirect. */
  function Redirect(state: AuthState, props: GuardProps): (r: Option<string>)
    ensures state.isLoading ==> r.None?
    ensures r == Some(RedirectTo(props)) || r == Some(SignedInHome) || r.None?
  {
    if state.isLoading then None
    else if RequireAuth(props) && !state.isAuthenticated then Some(RedirectTo(props))
    else if !RequireAuth(props) && state.isAuthenticated then Some(SignedInHome)
    else None
  }

  /** What the component renders: the spinner, or its children. */
  datatype View = Spinner | Children

  /** The render: the three spinner branches, then the children. */
  function Render(state: AuthState, props: GuardProps): (v: View)
    ensures state.isLoading ==> v == Spinner
  {
    if state.isLoading then Spinner
    else if RequireAuth(props) && !state.isAuthenticated then Spinner
    else if !RequireAuth(props) && state.isAuthenticated then Spinner
    else Children
  }

  /**
   * The children are shown exactly when the check has finished and the
   * session matches what the route requires; a redirect is then never issued.
   */
  lemma ChildrenExactly(state: AuthState, props: GuardProps)
    ensures Render(state, props) == Children <==> !state.isLoading && RequireAuth(props) == state.isAuthenticated
    ensures Render(state, props) == Children ==> Redirect(state, props).None?
  {
  }

  /** Once loading is over, the spinner is shown exactly while a redirect is pending. */
  lemma SpinnerWhileRedirecting(state: AuthState, props: GuardProps)
    requires !state.isLoading
    ensures Render(state, props) == Spinner <==> Redirect(state, props).Some?
  {
  }

  /**
   * Which target the redirect picks: a route that requires a session sends a
   * visitor without one to `redirectTo` (the login page by default), and a
   * route for visitors sends a signed-in user to the dashboard.
   */
  lemma RedirectTargets(state: AuthState, props: GuardProps)
    ensures RequireAuth(props) ==>
      Redirect(state, props) == (if !state.isLoading && !state.isAuthenticated then Some(RedirectTo(props)) else None)
    ensures !RequireAuth(props) ==>
      Redirect(state, props) == (if !state.isLoading && state.isAuthenticated then Some(SignedInHome) else None)
    ensures props == GuardProps(None, None) && !state.isLoading && !state.isAuthenticated ==>
      Redirect(state, props) == Some(DefaultRedirect)
  {
  }
}
