/** The response interceptor of the shared HTTP client (src/api/api.ts): on
    an expired session (401 or 419) it clears the authentication keys and
    sends the browser to the right login page, then passes the error on. */
module ApiInterceptor {
  import opened Wrappers
  import opened Text
  import opened Storage

  /** The login page for a path: the admin one inside "/admin". */
  function LoginPath(path: string): (login: string)
    ensures StartsWith(path, "/admin") ==> login == "/admin/login"
    ensures !StartsWith(path, "/admin") ==> login == "/login"
  {
    if StartsWith(path, "/admin") then "/admin/login" else "/login"
  }

  /** No redirect from the OAuth callback or from the login page itself. */
  predicate ShouldRedirect(path: string) {
    path != "/auth/callback" && path != LoginPath(path)
  }

  predicate IsExpired(status: int) {
    status == 401 || status == 419
  }

  /** Session storage after a redirecting 401/419: cleaned, plus the way
      back for a user page. */
  function SessionAfterRedirect(items: map<string, string>, path: string): map<string, string> {
    if StartsWith(path, "/admin") then ClearedSession(items) else ClearedSession(items)[PostLoginRedirectKey := path]
  }

  /** The error handler. `status` is `error.response.status` (absent as 0),
      `pathname` is `window.location.pathname` (empty as "/"); `redirect` is
      the page handed to `window.location.replace`, if any; the error itself
      is always rejected again. */
  method OnResponseError<E>(error: E, status: Option<int>, pathname: Option<string>, local: WebStorage, session: WebStorage)
    returns (rejection: E, redirect: Option<string>)
    requires local != session
    modifies local, session
    ensures rejection == error
    ensures !IsExpired(status.GetOr(0)) ==>
              redirect.None? && local.items == old(local.items) && session.items == old(session.items)
    ensures IsExpired(status.GetOr(0)) ==> local.items == ClearedLocal(old(local.items))
    ensures IsExpired(status.GetOr(0)) && ShouldRedirect(ItemOr(pathname, "/")) ==>
              redirect == Some(LoginPath(ItemOr(pathname, "/"))) &&
              session.items == SessionAfterRedirect(old(session.items), ItemOr(pathname, "/"))
    ensures IsExpired(status.GetOr(0)) && !ShouldRedirect(ItemOr(pathname, "/")) ==>
              redirect.None? && session.items == ClearedSession(old(session.items))
  {
    rejection := error;
    redirect := None;
    var code := status.GetOr(0);
    if code == 401 || code == 419 {
      ClearAuthKeys(local, session);
      var currentPath := ItemOr(pathname, "/");
      var isAdmin := StartsWith(currentPath, "/admin");
      var loginPath := if isAdmin then "/admin/login" else "/login";
      if currentPath != "/auth/callback" && currentPath != loginPath {
        if !isAdmin {
          session.SetItem(PostLoginRedirectKey, currentPath);
        }
        redirect := Some(loginPath);
      }
    }
  }

  /** The login page a redirect lands on does not redirect again, and the
      way back stored for a user page is never an admin path. */
  lemma NoRedirectLoop(path: string)
    ensures !ShouldRedirect(LoginPath(path))
    ensures !StartsWith(path, "/admin") ==> SessionAfterRedirect(map[], path)[PostLoginRedirectKey] == path
  {
    if StartsWith(path, "/admin") {
      assert StartsWith("/admin/login", "/admin") by {
        assert "/admin/login"[..|"/admin"|] == "/admin";
      }
    } else {
      assert !StartsWith("/login", "/admin") by {
        assert "/login"[1] != "/admin"[1];
      }
    }
  }

  /** Only the authentication keys go; everything else in both storages,
      "postLoginRedirect" and the quiz keys included, keeps its value. */
  lemma OtherKeysSurvive(local: map<string, string>, session: map<string, string>, key: string)
    requires key in session && key != "session_id" && !StartsWith(key, AuthPrefix)
    requires key in local && key != "auth_token" && key != "user_id"
    ensures key in ClearedSession(session) && ClearedSession(session)[key] == session[key]
    ensures key in ClearedLocal(local) && ClearedLocal(local)[key] == local[key]
  {
    ClearedKeys(local);
    ClearedKeys(session);
  }
}
