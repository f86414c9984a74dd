/** The route guards of src/components/RouteGuard.tsx. What a guard renders
    is a decision function of the signed-in user, the guard's pending
    refresh and the navigation state; ProtectedRoute and AdminRoute also
    keep a once-only `attemptedRef` flag and a `loading` state, changed by
    their effect and by the refresh settling. */
module RouteGuard {
  import opened Wrappers
  import opened Routing
  import opened Auth
  import Quiz

  /** What a guard renders. */
  datatype Render =
    | Nothing                    // `return null`
    | Children                   // `<>{children}</>`
    | ChildOutlet                // `<Outlet />`
    | Redirect(nav: Navigation)  // `<Navigate ... />`

  /** Every allowing branch: the children when given, else the outlet. */
  function Allow(hasChildren: bool): (r: Render)
    ensures r.Children? <==> hasChildren
    ensures r.ChildOutlet? <==> !hasChildren
  {
    if hasChildren then Children else ChildOutlet
  }

  predicate Allows(r: Render) {
    r.Children? || r.ChildOutlet?
  }

  /** ProtectedRoute: nothing while its refresh is pending, the login page
      (remembering where the user was) without a user, else the page. */
  function ProtectedDecision(loading: bool, user: Option<User>, redirectTo: string, pathname: string,
                             hasChildren: bool): (r: Render)
    ensures loading ==> r == Nothing
    ensures !loading && user.None? ==> r == Redirect(Navigation(redirectTo, true, NavState(Some(pathname), None, None)))
    ensures !loading && user.Some? ==> r == Allow(hasChildren)
  {
    if loading then Nothing
    else if user.None? then Redirect(Navigation(redirectTo, true, NavState(Some(pathname), None, None)))
    else Allow(hasChildren)
  }

  /** GuestRoute: no refresh and no waiting; a signed-in user is sent away. */
  function GuestDecision(user: Option<User>, redirectTo: string, hasChildren: bool): (r: Render)
    ensures user.Some? ==> r == Redirect(Replace(redirectTo))
    ensures user.None? ==> r == Allow(hasChildren)
  {
    if user.Some? then Redirect(Replace(redirectTo)) else Allow(hasChildren)
  }

  /** QuizRequiredRoute: reads the navigation state only. Any answers
      object, even an empty one, is truthy. */
  function QuizRequiredDecision(state: NavState, hasChildren: bool): (r: Render)
    ensures state.answers.None? ==> r == Redirect(Replace("/quiz"))
    ensures state.answers.Some? ==> r == Allow(hasChildren)
  {
    if state.answers.None? then Redirect(Replace("/quiz")) else Allow(hasChildren)
  }

  /** AdminRoute: nothing while pending, then no user before not-an-admin
      before allow. */
  function AdminDecision(loading: bool, user: Option<User>, hasChildren: bool): (r: Render)
    ensures loading ==> r == Nothing
    ensures !loading && user.None? ==> r == Redirect(Replace("/admin/login"))
    ensures !loading && user.Some? && !IsAdminUser(user) ==> r == Redirect(Replace("/"))
    ensures Allows(r) <==> !loading && IsAdminUser(user)
  {
    if loading then Nothing
    else if user.None? then Redirect(Replace("/admin/login"))
    else if !IsAdminUser(user) then Redirect(Replace("/"))
    else Allow(hasChildren)
  }

  /** Once settled, exactly one of ProtectedRoute and GuestRoute lets a page
      through. */
  lemma ProtectedGuestComplementary(user: Option<User>, protectedTo: string, guestTo: string, pathname: string,
                                    hasChildren: bool)
    ensures Allows(ProtectedDecision(false, user, protectedTo, pathname, hasChildren))
            != Allows(GuestDecision(user, guestTo, hasChildren))
  {
  }

  /** Every page that allows an admin also allows them as a signed-in user. */
  lemma AdminImpliesProtected(user: Option<User>, redirectTo: string, pathname: string, hasChildren: bool)
    ensures Allows(AdminDecision(false, user, hasChildren)) ==> Allows(ProtectedDecision(false, user, redirectTo, pathname, hasChildren))
  {
  }

  /** Every navigation the quiz page makes to "/loading" carries answers,
      so QuizRequiredRoute lets it through. */
  lemma QuizNavigationsPass(answers: map<nat, string>, hasChildren: bool)
    ensures QuizRequiredDecision(Quiz.WithAnswers("/loading", answers).state, hasChildren) == Allow(hasChildren)
  {
  }

  /** An admin who reloads an admin page loses the client state; AdminRoute
      then refreshes through the user endpoint, which always yields the
      "user" role, and redirects to "/" even though the server accepted the
      session. */
  lemma AdminReloadRejected(reply: Result<ApiResponse<Me>, string>, today: string, hasChildren: bool)
    requires Accepted(reply)
    ensures AdminDecision(false, RefreshedUser(reply, today), hasChildren) == Redirect(Replace("/"))
  {
  }

  /** Refreshed through the admin endpoint instead, an accepted session is
      let through and a refused one goes to the admin login. */
  lemma AdminReloadAccepted(reply: Result<ApiResponse<AdminMe>, string>, today: string, hasChildren: bool)
    ensures Accepted(reply) ==> AdminDecision(false, RefreshedAdmin(reply, today), hasChildren) == Allow(hasChildren)
    ensures !Accepted(reply) ==> AdminDecision(false, RefreshedAdmin(reply, today), hasChildren) == Redirect(Replace("/admin/login"))
  {
  }

  /** The refresh bookkeeping ProtectedRoute and AdminRoute share: the
      once-only flag, the loading state and the number of refreshes this
      mount has started. */
  class RefreshGuard {
    const auth: AuthProvider
    var attempted: bool
    var loading: bool
    var refreshCalls: nat

    /** At most one refresh per mount, and loading only after it started. */
    ghost predicate Valid()
      reads this
    {
      refreshCalls <= 1 && (refreshCalls == 1 <==> attempted) && (loading ==> attempted)
    }

    constructor (auth: AuthProvider)
      ensures Valid() && this.auth == auth && !attempted && !loading && refreshCalls == 0
    {
      this.auth := auth;
      attempted := false;
      loading := false;
      refreshCalls := 0;
    }

    /** The effect: start a refresh only without a user and only once. */
    method Effect() returns (started: bool)
      requires Valid()
      modifies this
      ensures Valid()
      ensures started <==> auth.user.None? && !old(attempted)
      ensures started ==> attempted && loading && refreshCalls == old(refreshCalls) + 1
      ensures !started ==> attempted == old(attempted) && loading == old(loading) && refreshCalls == old(refreshCalls)
    {
      started := auth.user.None? && !attempted;
      if started {
        attempted := true;
        loading := true;
        refreshCalls := refreshCalls + 1;
      }
    }

    /** The refresh through `refreshUserFromServer` settling: the user is
        replaced and loading ends, whatever the outcome. Both guards do this. */
    method SettleUser(reply: Result<ApiResponse<Me>, string>, today: string)
      requires Valid() && loading
      modifies this, auth
      ensures Valid()
      ensures !loading && attempted && refreshCalls == old(refreshCalls)
      ensures auth.user == RefreshedUser(reply, today)
      ensures auth.savedOutfits == old(auth.savedOutfits)
    {
      var _ := auth.RefreshUserFromServer(reply, today);
      loading := false;
    }

    /** The refresh through `refreshAdminFromServer` settling, as AdminRoute
        evidently means to. */
    method SettleAdmin(reply: Result<ApiResponse<AdminMe>, string>, today: string)
      requires Valid() && loading
      modifies this, auth
      ensures Valid()
      ensures !loading && attempted && refreshCalls == old(refreshCalls)
      ensures auth.user == RefreshedAdmin(reply, today)
      ensures auth.savedOutfits == old(auth.savedOutfits)
    {
      var _ := auth.RefreshAdminFromServer(reply, today);
      loading := false;
    }

    /** What ProtectedRoute renders now. */
    function RenderProtected(redirectTo: Option<string>, pathname: string, hasChildren: bool): (r: Render)
      reads this, auth
      ensures loading ==> r == Nothing
      ensures !loading && auth.user.None? ==>
                r == Redirect(Navigation(redirectTo.GetOr("/login"), true, NavState(Some(pathname), None, None)))
    {
      ProtectedDecision(loading, auth.user, redirectTo.GetOr("/login"), pathname, hasChildren)
    }

    /** What AdminRoute renders now. */
    function RenderAdmin(hasChildren: bool): (r: Render)
      reads this, auth
      ensures loading ==> r == Nothing
      ensures Allows(r) <==> !loading && auth.IsAdmin()
    {
      AdminDecision(loading, auth.user, hasChildren)
    }
  }
}
