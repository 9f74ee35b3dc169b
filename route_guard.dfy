/**
 * The access decision of `useProtectedRoute`: given the session's cells and
 * the route's options, whether to wait, to redirect (with the notice shown),
 * or to let the page render. Navigation and notices are the decision value.
 */
module RouteGuard {
  import opened Wrappers
  import opened Identity
  import opened AuthContext

  const LoginPath := "/login"
  const HomePath := "/"

  /** The two error notices the hook shows before redirecting. */
  datatype Notice = MustSignIn | InsufficientPermissions

  datatype Decision = NoDecision | Redirect(path: string, notice: Notice) | Allow

  /** The hook's options; an absent field takes its default. */
  datatype RouteOptions = RouteOptions(requiredRoles: Option<seq<string>>, redirectTo: Option<string>)

  /** `requiredRoles = []` */
  function RequiredRoles(o: RouteOptions): (r: seq<string>)
    ensures o.requiredRoles.None? ==> r == []
    ensures o.requiredRoles.Some? ==> r == o.requiredRoles.value
  {
    match o.requiredRoles
    case None => []
    case Some(roles) => roles
  }

  /** `redirectTo = '/login'` */
  function RedirectTarget(o: RouteOptions): (r: string)
    ensures o.redirectTo.None? ==> r == LoginPath
    ensures o.redirectTo.Some? ==> r == o.redirectTo.value
  {
    match o.redirectTo
    case None => LoginPath
    case Some(path) => path
  }

  /** The body of the hook's effect. */
  function Decide(isLoading: bool, isAuthenticated: bool, user: Option<User>, requiredRoles: seq<string>, redirectTo: string): (d: Decision)
    ensures d == NoDecision <==> isLoading
    ensures !isLoading && !isAuthenticated ==> d == Redirect(redirectTo, MustSignIn)
    ensures (d.Redirect? && d.notice == InsufficientPermissions) <==>
      (!isLoading && isAuthenticated && |requiredRoles| > 0 && user.Some? && user.value.role !in requiredRoles)
    ensures d.Redirect? && d.notice == InsufficientPermissions ==> d.path == HomePath
    ensures d == Allow <==>
      (!isLoading && isAuthenticated && (|requiredRoles| == 0 || user.None? || user.value.role in requiredRoles))
  {
    if isLoading then NoDecision
    else if !isAuthenticated then Redirect(redirectTo, MustSignIn)
    else if |requiredRoles| > 0 && user.Some? && user.value.role !in requiredRoles then Redirect(HomePath, InsufficientPermissions)
    else Allow
  }

  /** What the hook returns: the session cells it read, and the decision its effect takes. */
  datatype Guarded = Guarded(view: Projection, decision: Decision)

  /** `useProtectedRoute(options)` under the given provider value. */
  function UseProtectedRoute(context: Option<Projection>, options: RouteOptions): (r: Result<Guarded, string>)
    ensures r.Failure? <==> context.None?
    ensures r.Success? ==> r.value.view == context.value
    ensures r.Success? ==>
      r.value.decision == Decide(context.value.isLoading, context.value.isAuthenticated, context.value.user,
                                 RequiredRoles(options), RedirectTarget(options))
  {
    match UseAuth(context)
    case Failure(e) => Failure(e)
    case Success(p) =>
      Success(Guarded(p, Decide(p.isLoading, p.isAuthenticated, p.user, RequiredRoles(options), RedirectTarget(options))))
  }

  /** With default options a signed-out, loaded session is sent to `/login`,
      and a signed-in one is let through whatever its role. */
  lemma DefaultOptions(p: Projection)
    requires !p.isLoading
    ensures var d := Decide(p.isLoading, p.isAuthenticated, p.user,
                            RequiredRoles(RouteOptions(None, None)), RedirectTarget(RouteOptions(None, None)));
      (if p.isAuthenticated then d == Allow else d == Redirect(LoginPath, MustSignIn))
  {
  }

  /** Role gating on an admin-only route: a user with another role is sent
      home, the required role is let through. */
  lemma SingleRoleGate(required: string, other: string, u: User)
    requires other != required
    ensures Decide(false, true, Some(u.(role := other)), [required], LoginPath) == Redirect(HomePath, InsufficientPermissions)
    ensures Decide(false, true, Some(u.(role := required)), [required], LoginPath) == Allow
  {
  }

  /** On every reachable session the guard's "no user" escape never applies:
      a signed-in, loaded session is allowed on a role-restricted route iff
      its user's role is one of the required roles. */
  lemma RoleGateOnValidSessions(s: State, requiredRoles: seq<string>, redirectTo: string)
    requires Inv(s)
    requires s.isAuthenticated && !s.isLoading && |requiredRoles| > 0
    ensures s.user.Some?
    ensures Decide(s.isLoading, s.isAuthenticated, s.user, requiredRoles, redirectTo) == Allow
        <==> s.user.value.role in requiredRoles
  {
  }

  /** After a logout on a loaded session, every protected route redirects to
      its sign-in target. */
  lemma LogoutThenGuardRedirects(s: State, ops: seq<Op>, options: RouteOptions)
    requires !Run(s, ops).isLoading
    ensures var t := Run(s, ops + [LogoutOp]);
      Decide(t.isLoading, t.isAuthenticated, t.user, RequiredRoles(options), RedirectTarget(options))
        == Redirect(RedirectTarget(options), MustSignIn)
  {
    LogoutClearsAfterAnyRun(s, ops);
  }
}
