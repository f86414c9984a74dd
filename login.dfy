/** The login page of src/pages/Login.tsx: where to go after signing in,
    the social sign-in buttons, and the "postLoginRedirect" bookkeeping the
    Kakao button does before leaving for Kakao's OAuth page. */
module Login {
  import opened Wrappers
  import opened Storage
  import opened Routing
  import opened Auth
  import Quiz
  import Json

  /** `location.state?.from || "/"`. */
  function From(state: NavState): (to: string)
    ensures to != ""
    ensures IsTruthy(state.from) ==> to == state.from.value
    ensures !IsTruthy(state.from) ==> to == "/"
  {
    ItemOr(state.from, "/")
  }

  function Get(items: map<string, string>, key: string): Option<string> {
    if key in items then Some(items[key]) else None
  }

  /** Session storage after the Kakao button: `from` is written unless both
      a redirect and pending quiz answers are already there. */
  function KakaoItems(items: map<string, string>, from: string): (r: map<string, string>)
    ensures IsTruthy(Get(items, PostLoginRedirectKey)) && IsTruthy(Get(items, PendingAnswersKey)) ==> r == items
    ensures !IsTruthy(Get(items, PostLoginRedirectKey)) || !IsTruthy(Get(items, PendingAnswersKey)) ==>
              r == items[PostLoginRedirectKey := from]
  {
    if !IsTruthy(Get(items, PostLoginRedirectKey)) || !IsTruthy(Get(items, PendingAnswersKey)) then
      items[PostLoginRedirectKey := from]
    else items
  }

  /** The Kakao button: the conditional write, then always the redirect to
      Kakao's sign-in page (the result says it was taken). */
  method KakaoClick(session: WebStorage, state: NavState) returns (leftForKakao: bool)
    modifies session
    ensures session.items == KakaoItems(old(session.items), From(state))
    ensures leftForKakao
  {
    var existingRedirect := session.GetItem(PostLoginRedirectKey);
    var pendingQuiz := session.GetItem(PendingAnswersKey);
    if !IsTruthy(existingRedirect) || !IsTruthy(pendingQuiz) {
      session.SetItem(PostLoginRedirectKey, From(state));
    }
    leftForKakao := true;
  }

  /** `handleSocial`: sign in, then go (replacing the entry) where the user
      came from, only if the sign-in says it succeeded. */
  method HandleSocial(auth: AuthProvider, provider: Provider, state: NavState, today: string)
    returns (nav: Option<Navigation>)
    modifies auth
    ensures auth.user.Some? && !auth.IsAdmin()
    ensures nav == Some(Navigation(From(state), true, NoState))
    ensures auth.savedOutfits == old(auth.savedOutfits)
  {
    var ok := auth.SocialLogin(provider, today);
    if ok {
      nav := Some(Navigation(From(state), true, NoState));
    } else {
      nav := None;
    }
  }

  /** Signing in with Kakao after finishing the quiz signed out keeps the
      way back to "/loading" that the quiz stored, whatever page the login
      was reached from. */
  lemma KakaoKeepsQuizRedirect(items: map<string, string>, answers: map<nat, string>, from: string)
    ensures KakaoItems(Quiz.SavedForLogin(items, answers), from) == Quiz.SavedForLogin(items, answers)
    ensures Quiz.SavedForLogin(items, answers)[PostLoginRedirectKey] == "/loading"
  {
    var saved := Quiz.SavedForLogin(items, answers);
    assert saved[PendingAnswersKey] == Json.EncodeAnswers(answers);
    assert Json.EncodeAnswers(answers)[0] == '{';
    assert saved[PostLoginRedirectKey] == "/loading";
  }

  /** Without pending quiz answers, the Kakao button always records `from`. */
  lemma KakaoRecordsFrom(items: map<string, string>, from: string)
    requires PendingAnswersKey !in items
    ensures KakaoItems(items, from)[PostLoginRedirectKey] == from
  {
  }
}
