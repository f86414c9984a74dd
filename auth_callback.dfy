/** The OAuth callback page of src/pages/AuthCallback.tsx: its `go`
    routine reads and removes "postLoginRedirect", then either reports the
    error code the backend sent back or refreshes the user from the server
    session, and navigates accordingly. */
module AuthCallback {
  import opened Wrappers
  import opened Storage
  import opened Routing
  import opened Auth
  import Quiz
  import Json
  import RouteGuard
  import Login

  const DefaultMessage := "로그인 중 오류가 발생했어요. 잠시 후 다시 시도해 주세요."

  /** The text shown on the login page for an OAuth error code. */
  function MessageFor(code: string): (message: string)
    ensures code == "AUTH_002" ==> message == "OAuth 인증에 실패했어요. 다시 시도해 주세요."
    ensures code == "AUTH_006" ==> message == "로그인을 취소하셨어요. 다시 시도해 주세요."
    ensures code == "AUTH_007" ==> message == "OAuth 토큰이 유효하지 않아요. 다시 시도해 주세요."
    ensures code == "AUTH_008" ==> message == "OAuth 응답을 처리할 수 없어요. 잠시 후 다시 시도해 주세요."
    ensures code !in {"AUTH_002", "AUTH_006", "AUTH_007", "AUTH_008"} ==> message == DefaultMessage
  {
    if code == "AUTH_002" then "OAuth 인증에 실패했어요. 다시 시도해 주세요."
    else if code == "AUTH_006" then "로그인을 취소하셨어요. 다시 시도해 주세요."
    else if code == "AUTH_007" then "OAuth 토큰이 유효하지 않아요. 다시 시도해 주세요."
    else if code == "AUTH_008" then "OAuth 응답을 처리할 수 없어요. 잠시 후 다시 시도해 주세요."
    else DefaultMessage
  }

  /** `sessionStorage.getItem("postLoginRedirect") || "/"`. */
  function RedirectTarget(items: map<string, string>): (to: string)
    ensures to != ""
    ensures PostLoginRedirectKey in items && items[PostLoginRedirectKey] != "" ==> to == items[PostLoginRedirectKey]
    ensures PostLoginRedirectKey !in items || items[PostLoginRedirectKey] == "" ==> to == "/"
  {
    ItemOr(if PostLoginRedirectKey in items then Some(items[PostLoginRedirectKey]) else None, "/")
  }

  /** `go()`: with a `code` query parameter, no refresh at all: back to the
      login page with the error text. Otherwise refresh, and on success go
      to the stored target, else to the login page remembering it. The
      stored target is removed on every path. */
  method Go(session: WebStorage, auth: AuthProvider, code: Option<string>, reply: Result<ApiResponse<Me>, string>,
            today: string) returns (nav: Navigation)
    modifies session, auth
    ensures session.items == old(session.items) - {PostLoginRedirectKey}
    ensures IsTruthy(code) ==>
              auth.user == old(auth.user) &&
              nav == Navigation("/login", true, NavState(Some(RedirectTarget(old(session.items))), None, Some(MessageFor(code.value))))
    ensures !IsTruthy(code) ==> auth.user == RefreshedUser(reply, today)
    ensures !IsTruthy(code) && Accepted(reply) ==> nav == Navigation(RedirectTarget(old(session.items)), true, NoState)
    ensures !IsTruthy(code) && !Accepted(reply) ==>
              nav == Navigation("/login", true, NavState(Some(RedirectTarget(old(session.items))), None, None))
    ensures auth.savedOutfits == old(auth.savedOutfits)
  {
    if IsTruthy(code) {
      var to := ItemOr(session.GetItem(PostLoginRedirectKey), "/");
      session.RemoveItem(PostLoginRedirectKey);
      nav := Navigation("/login", true, NavState(Some(to), None, Some(MessageFor(code.value))));
      return;
    }
    var ok := auth.RefreshUserFromServer(reply, today);
    var to := ItemOr(session.GetItem(PostLoginRedirectKey), "/");
    session.RemoveItem(PostLoginRedirectKey);
    if ok {
      nav := Navigation(to, true, NoState);
    } else {
      nav := Navigation("/login", true, NavState(Some(to), None, None));
    }
  }

  /** A failed callback hands its target to the login page, which sends the
      user there after the next sign-in. */
  lemma FailureKeepsTarget(items: map<string, string>, message: Option<string>)
    ensures Login.From(NavState(Some(RedirectTarget(items)), None, message)) == RedirectTarget(items)
  {
  }

  /** The quiz flow through Kakao: the callback sends the user to
      "/loading" without answers, QuizRequiredRoute bounces them to "/quiz",
      and there the answers still pending in storage are resumed. */
  lemma QuizLoginRoundTrip(items: map<string, string>, answers: map<nat, string>, hasChildren: bool)
    ensures var saved := Quiz.SavedForLogin(items, answers);
            RedirectTarget(saved) == "/loading" &&
            RouteGuard.QuizRequiredDecision(NoState, hasChildren) == RouteGuard.Redirect(Replace("/quiz")) &&
            Quiz.ReconcileReaction(true, saved - {PostLoginRedirectKey}, true) == Quiz.Resume(answers)
  {
    var saved := Quiz.SavedForLogin(items, answers);
    assert RedirectTarget(saved) == "/loading" by {
      assert saved[PostLoginRedirectKey] == "/loading";
    }
    var after := saved - {PostLoginRedirectKey};
    assert Quiz.ReconcileReaction(true, after, true) == Quiz.ReconcileReaction(true, saved, true) by {
      assert PendingAnswersKey[1] != PostLoginRedirectKey[1];
      assert PendingAnswersKey in after && after[PendingAnswersKey] == saved[PendingAnswersKey];
    }
    Quiz.SavedAnswersResume(items, answers);
  }
}
