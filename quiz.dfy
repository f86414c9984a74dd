/** The quiz page of src/pages/Quiz.tsx as a state machine: the loaded
    questions, the current step, the answer map, the `advancingRef`
    re-entrancy flag, the pending 150 ms advance timer, the login modal and
    the keys the page keeps in session storage ("quiz_session",
    "pendingQuizAnswers", "postLoginRedirect"). Remote calls are parameters
    holding their outcome; the timer firing is the explicit step
    `FireAdvance`; each `navigate(...)` call is appended to `navigations`. */
module Quiz {
  import opened Wrappers
  import opened Lists
  import opened Json
  import opened Storage
  import opened Routing
  import opened QuizApi

  /** A question; only its id matters to the page's state. */
  datatype Question = Question(id: nat)

  /** What the 150 ms timer callback captured when it was scheduled: the
      answers including the new selection, and whether a user was signed in
      at that render. */
  datatype Advance = Advance(nextAnswers: map<nat, string>, userPresent: bool)

  /** What the reconciliation effect does with the storage it finds. */
  datatype Reaction =
    | Idle                                 // not loaded yet, or nothing pending
    | Resume(answers: map<nat, string>)    // signed in: go to "/loading" with them
    | Discard                              // signed in, but the text does not parse
    | AskLogin                             // signed out: show the login modal

  /** Load's reuse test (line 54): a new session is started when there is no
      stored one, or it belongs to another quiz, or it is completed. */
  predicate NeedsNewSession(existing: Option<QuizSession>, quizId: int) {
    existing.None? || existing.value.quizId != quizId || existing.value.completed
  }

  /** `state: { answers }`. */
  function WithAnswers(to: string, answers: map<nat, string>): Navigation {
    Navigation(to, false, NavState(None, Some(answers), None))
  }

  /** The session step of the mount effect, from the storage before
      (`items`) to the storage after (`items'`) and the error it reports:
      a reusable stored session is kept; otherwise a new one is started, and
      either stored or reported as the error. */
  ghost predicate SessionStep(items: map<string, string>, items': map<string, string>, quizId: int,
                              startReply: Result<Envelope<QuizSession>, string>, failure: Option<string>)
  {
    if !NeedsNewSession(GetStoredSession(items), quizId) then failure.None? && items' == items
    else
      match StartResult(startReply)
      case Ok(s) => failure.None? && GetStoredSession(items') == Some(s) && items' == items[SessionStorageKey := EncodeSession(s)]
      case Err(message) => failure == Some(message) && items' == items
  }

  /** Keeps a reusable stored session or starts a new one. */
  method StartUnlessReusable(session: WebStorage, quizId: int, startReply: Result<Envelope<QuizSession>, string>)
    returns (failure: Option<string>)
    modifies session
    ensures SessionStep(old(session.items), session.items, quizId, startReply, failure)
  {
    failure := None;
    var existing := GetStoredSession(session.items);
    if NeedsNewSession(existing, quizId) {
      var started := StartQuizSession(session, startReply);
      if started.Err? {
        failure := Some(started.error);
      }
    }
  }

  /** The reconciliation effect's decision. */
  function ReconcileReaction(isRestored: bool, items: map<string, string>, userPresent: bool): Reaction {
    var pending := if PendingAnswersKey in items then Some(items[PendingAnswersKey]) else None;
    if !isRestored || !IsTruthy(pending) then Idle
    else if userPresent then
      match DecodeAnswers(pending.value)
      case Some(answers) => Resume(answers)
      case None => Discard
    else AskLogin
  }

  /** Storage after the effect as written: only a text that fails to parse is
      removed; a resumed one stays. */
  function AfterReconcile(items: map<string, string>, reaction: Reaction): map<string, string> {
    if reaction.Discard? then items - {PendingAnswersKey} else items
  }

  /** Storage after the corrected effect: a resumed text is consumed too. */
  function AfterReconcileConsuming(items: map<string, string>, reaction: Reaction): map<string, string> {
    if reaction.Discard? || reaction.Resume? then items - {PendingAnswersKey} else items
  }

  /** Storage after the last step was answered while signed out. */
  function SavedForLogin(items: map<string, string>, answers: map<nat, string>): map<string, string> {
    items[PendingAnswersKey := EncodeAnswers(answers)][PostLoginRedirectKey := "/loading"]
  }

  /** The signed-out end of the quiz: keep the answers and the way back for
      after login. */
  method SaveForLogin(session: WebStorage, answers: map<nat, string>)
    modifies session
    ensures session.items == SavedForLogin(old(session.items), answers)
  {
    session.SetItem(PendingAnswersKey, EncodeAnswers(answers));
    session.SetItem(PostLoginRedirectKey, "/loading");
  }

  /** The signed-in end of the quiz: complete the stored session, if any;
      a failure leaves storage as it was and is not reported. */
  method CompleteIfStored(session: WebStorage, completeReply: Result<Envelope<CompleteSessionResponse>, string>)
    modifies session
    ensures session.items == if CompleteResult(completeReply).Ok? then MarkCompleted(old(session.items)) else old(session.items)
  {
    var stored := GetStoredSession(session.items);
    if stored.Some? {
      var _ := CompleteQuizSession(session, completeReply);
    } else {
      MarkCompletedFlips(session.items);
    }
  }

  /** Is `answers[q.id]` truthy? */
  predicate IsAnswered(answers: map<nat, string>, q: Question) {
    q.id in answers && answers[q.id] != ""
  }

  /** The number of questions in `qs` with a truthy answer. */
  function CountAnswered(qs: seq<Question>, answers: map<nat, string>): (n: nat)
    ensures n <= |qs|
    ensures n == |qs| <==> forall i :: 0 <= i < |qs| ==> IsAnswered(answers, qs[i])
    ensures n == 0 <==> forall i :: 0 <= i < |qs| ==> !IsAnswered(answers, qs[i])
    decreases |qs|
  {
    if qs == [] then 0
    else
      assert forall i :: 1 <= i < |qs| ==> qs[i] == qs[1..][i - 1];
      (if IsAnswered(answers, qs[0]) then 1 else 0) + CountAnswered(qs[1..], answers)
  }

  class QuizPage {
    /** The tab's `sessionStorage`. */
    const session: WebStorage
    var questions: seq<Question>
    var isLoading: bool
    var error: Option<string>
    var currentStep: nat
    var answers: map<nat, string>
    var isRestored: bool
    var isAdvancing: bool
    var showLoginModal: bool
    /** `advancingRef.current`. */
    var advancing: bool
    /** The scheduled advance callback, if any. */
    var timer: Option<Advance>
    var navigations: seq<Navigation>

    /** The step indexes a question whenever there is one, and a callback is
        scheduled exactly while the re-entrancy flag is up. */
    ghost predicate Valid()
      reads this
    {
      (currentStep < |questions| || currentStep == 0) && (timer.Some? <==> advancing)
    }

    /** The first render: nothing loaded, step 0, no answers. */
    constructor (session: WebStorage)
      ensures Valid()
      ensures this.session == session && questions == [] && isLoading && error.None?
      ensures currentStep == 0 && answers == map[] && !isRestored && !isAdvancing && !showLoginModal
      ensures !advancing && timer.None? && navigations == []
    {
      this.session := session;
      questions := [];
      isLoading := true;
      error := None;
      currentStep := 0;
      answers := map[];
      isRestored := false;
      isAdvancing := false;
      showLoginModal := false;
      advancing := false;
      timer := None;
      navigations := [];
    }

    /** The number of questions before the current one that have a truthy
        answer: `questions.slice(0, currentStep).filter(q => answers[q.id]).length`. */
    function AnsweredCount(): (n: nat)
      reads this
      ensures n <= currentStep && n <= |questions|
      ensures currentStep <= |questions| ==>
                (n == currentStep <==> forall i :: 0 <= i < currentStep ==> IsAnswered(answers, questions[i]))
    {
      CountAnswered(if currentStep <= |questions| then questions[..currentStep] else questions, answers)
    }

    /** The mount effect: fetch the default quiz id, then its questions, then
        start a session unless the stored one can be reused. Any failure
        becomes the page's error; loading ends and the page counts as
        restored whatever happened. The frame leaves the step, the answers,
        the advance state and the navigations as they were. */
    method Load(quizId: Result<int, string>, loaded: Result<seq<Question>, string>,
                startReply: Result<Envelope<QuizSession>, string>)
      requires Valid() && currentStep == 0
      modifies this`isLoading, this`error, this`questions, this`isRestored, session
      ensures Valid()
      ensures !isLoading && isRestored
      ensures quizId.Err? ==> error == Some(quizId.error) && questions == old(questions) && session.items == old(session.items)
      ensures quizId.Ok? && loaded.Err? ==>
                error == Some(loaded.error) && questions == old(questions) && session.items == old(session.items)
      ensures quizId.Ok? && loaded.Ok? ==> questions == loaded.value
      ensures quizId.Ok? && loaded.Ok? ==> SessionStep(old(session.items), session.items, quizId.value, startReply, error)
    {
      isLoading := true;
      error := None;
      match quizId {
        case Err(message) =>
          error := Some(message);
        case Ok(id) =>
          match loaded {
            case Err(message) =>
              error := Some(message);
            case Ok(qs) =>
              questions := qs;
              StartSession(id, startReply);
          }
      }
      isLoading := false;
      isRestored := true;
    }

    /** The effect's session step: keeps a reusable stored session or starts
        a new one, and shows the failure, if any, as the page's error. */
    method StartSession(id: int, startReply: Result<Envelope<QuizSession>, string>)
      modifies this`error, session
      ensures SessionStep(old(session.items), session.items, id, startReply, error)
    {
      error := StartUnlessReusable(session, id, startReply);
    }

    /** The reconciliation effect as written (lines 72-94). */
    method Reconcile(userPresent: bool)
      requires Valid()
      modifies this, session
      ensures Valid()
      ensures var reaction := ReconcileReaction(old(isRestored), old(session.items), userPresent);
              session.items == AfterReconcile(old(session.items), reaction) &&
              navigations == old(navigations) + (if reaction.Resume? then [WithAnswers("/loading", reaction.answers)] else []) &&
              showLoginModal == (old(showLoginModal) || reaction.AskLogin?)
      ensures currentStep == old(currentStep) && answers == old(answers) && advancing == old(advancing) && timer == old(timer)
      ensures questions == old(questions) && isAdvancing == old(isAdvancing)
      ensures isLoading == old(isLoading) && error == old(error) && isRestored == old(isRestored)
    {
      var reaction := ReconcileReaction(isRestored, session.items, userPresent);
      match reaction
      case Idle =>
      case Resume(parsed) =>
        navigations := navigations + [WithAnswers("/loading", parsed)];
      case Discard =>
        session.RemoveItem(PendingAnswersKey);
      case AskLogin =>
        showLoginModal := true;
    }

    /** The effect with the resumed answers consumed, so that they are acted
        on once. */
    method ReconcileConsuming(userPresent: bool)
      requires Valid()
      modifies this, session
      ensures Valid()
      ensures var reaction := ReconcileReaction(old(isRestored), old(session.items), userPresent);
              session.items == AfterReconcileConsuming(old(session.items), reaction) &&
              navigations == old(navigations) + (if reaction.Resume? then [WithAnswers("/loading", reaction.answers)] else []) &&
              showLoginModal == (old(showLoginModal) || reaction.AskLogin?)
      ensures currentStep == old(currentStep) && answers == old(answers) && advancing == old(advancing) && timer == old(timer)
      ensures questions == old(questions) && isAdvancing == old(isAdvancing)
      ensures isLoading == old(isLoading) && error == old(error) && isRestored == old(isRestored)
    {
      var reaction := ReconcileReaction(isRestored, session.items, userPresent);
      match reaction
      case Idle =>
      case Resume(parsed) =>
        session.RemoveItem(PendingAnswersKey);
        navigations := navigations + [WithAnswers("/loading", parsed)];
      case Discard =>
        session.RemoveItem(PendingAnswersKey);
      case AskLogin =>
        showLoginModal := true;
    }

    /** `handleLoginModalConfirm`: hide the modal and go to the login page,
        asking it to come back to "/loading". */
    method HandleLoginModalConfirm()
      modifies this
      ensures !showLoginModal
      ensures navigations == old(navigations) + [Navigation("/login", false, NavState(Some("/loading"), None, None))]
      ensures questions == old(questions) && currentStep == old(currentStep) && answers == old(answers)
      ensures advancing == old(advancing) && timer == old(timer) && isAdvancing == old(isAdvancing)
      ensures isLoading == old(isLoading) && error == old(error) && isRestored == old(isRestored)
    {
      showLoginModal := false;
      navigations := navigations + [Navigation("/login", false, NavState(Some("/loading"), None, None))];
    }

    /** `handleSelect(value)`: ignored while an advance is under way;
        otherwise the flag goes up first, the answer for the current
        question is recorded, the answer is sent to the server if a session
        is stored (its outcome is discarded), and the advance is scheduled. */
    method HandleSelect(value: string, userPresent: bool, saveReply: Result<Envelope<SaveAnswerResponse>, string>)
      requires Valid() && currentStep < |questions|
      modifies this`advancing, this`isAdvancing, this`answers, this`timer
      ensures Valid()
      ensures old(advancing) ==> answers == old(answers) && timer == old(timer) && isAdvancing == old(isAdvancing)
      ensures !old(advancing) ==>
                var next := old(answers)[old(questions)[old(currentStep)].id := value];
                answers == next && advancing && isAdvancing && timer == Some(Advance(next, userPresent))
      ensures questions == old(questions) && currentStep == old(currentStep) && navigations == old(navigations)
      ensures showLoginModal == old(showLoginModal)
      ensures isLoading == old(isLoading) && error == old(error) && isRestored == old(isRestored)
    {
      if advancing {
        return;
      }
      advancing := true;
      isAdvancing := true;
      var current := questions[currentStep];
      var next := answers[current.id := value];
      answers := next;
      var stored := GetStoredSession(session.items);
      if stored.Some? {
        var _ := SaveQuizAnswer(saveReply);
      }
      timer := Some(Advance(next, userPresent));
    }

    /** The scheduled callback firing. It reads the step at firing time:
        before the last question it moves on by one and lowers the flag; at
        the last question it either saves the answers for after login
        (signed out when scheduled) or completes the session, whatever the
        outcome, and goes to "/loading" with the answers. */
    method FireAdvance(completeReply: Result<Envelope<CompleteSessionResponse>, string>)
      requires Valid() && timer.Some?
      modifies this`timer, this`currentStep, this`advancing, this`isAdvancing, this`showLoginModal, this`navigations, session
      ensures Valid()
      ensures timer.None? && !advancing && !isAdvancing
      ensures var advance := old(timer).value;
              if old(currentStep) < |questions| - 1 then
                currentStep == old(currentStep) + 1 && session.items == old(session.items) &&
                navigations == old(navigations) && showLoginModal == old(showLoginModal)
              else if !advance.userPresent then
                currentStep == old(currentStep) && session.items == SavedForLogin(old(session.items), advance.nextAnswers) &&
                navigations == old(navigations) && showLoginModal
              else
                currentStep == old(currentStep) && navigations == old(navigations) + [WithAnswers("/loading", advance.nextAnswers)] &&
                showLoginModal == old(showLoginModal) &&
                session.items == (if CompleteResult(completeReply).Ok? then MarkCompleted(old(session.items)) else old(session.items))
      ensures questions == old(questions) && answers == old(answers)
      ensures isLoading == old(isLoading) && error == old(error) && isRestored == old(isRestored)
    {
      var advance := timer.value;
      timer := None;
      if currentStep < |questions| - 1 {
        currentStep := currentStep + 1;
        advancing := false;
        isAdvancing := false;
      } else {
        advancing := false;
        isAdvancing := false;
        Finish(advance.nextAnswers, advance.userPresent, completeReply);
      }
    }

    /** `handleNext` (Enter key): the same as the callback, but with the
        rendered answers and without touching the flag. */
    method HandleNext(userPresent: bool, completeReply: Result<Envelope<CompleteSessionResponse>, string>)
      requires Valid()
      modifies this`currentStep, this`showLoginModal, this`navigations, session
      ensures Valid()
      ensures if old(currentStep) < |questions| - 1 then
                currentStep == old(currentStep) + 1 && session.items == old(session.items) &&
                navigations == old(navigations) && showLoginModal == old(showLoginModal)
              else if !userPresent then
                currentStep == old(currentStep) && session.items == SavedForLogin(old(session.items), old(answers)) &&
                navigations == old(navigations) && showLoginModal
              else
                currentStep == old(currentStep) && navigations == old(navigations) + [WithAnswers("/loading", old(answers))] &&
                showLoginModal == old(showLoginModal) &&
                session.items == (if CompleteResult(completeReply).Ok? then MarkCompleted(old(session.items)) else old(session.items))
      ensures questions == old(questions) && answers == old(answers) && advancing == old(advancing) && timer == old(timer)
      ensures isAdvancing == old(isAdvancing)
      ensures isLoading == old(isLoading) && error == old(error) && isRestored == old(isRestored)
    {
      if currentStep < |questions| - 1 {
        currentStep := currentStep + 1;
      } else {
        Finish(answers, userPresent, completeReply);
      }
    }

    /** The last question answered, as both the callback and `handleNext`
        end: signed out, the answers are saved for after login and the
        login modal opens; signed in, the stored session is completed and
        the page goes to "/loading" with the answers. */
    method Finish(final: map<nat, string>, userPresent: bool,
                  completeReply: Result<Envelope<CompleteSessionResponse>, string>)
      modifies this`showLoginModal, this`navigations, session
      ensures !userPresent ==>
                session.items == SavedForLogin(old(session.items), final) && navigations == old(navigations) && showLoginModal
      ensures userPresent ==>
                navigations == old(navigations) + [WithAnswers("/loading", final)] && showLoginModal == old(showLoginModal) &&
                session.items == (if CompleteResult(completeReply).Ok? then MarkCompleted(old(session.items)) else old(session.items))
    {
      if !userPresent {
        SaveForLogin(session, final);
        showLoginModal := true;
      } else {
        CompleteIfStored(session, completeReply);
        navigations := navigations + [WithAnswers("/loading", final)];
      }
    }

    /** `handleBack`: one question back, or from the first one, drop the
        stored session and go home. */
    method HandleBack()
      requires Valid()
      modifies this, session
      ensures Valid()
      ensures old(currentStep) > 0 ==>
                currentStep == old(currentStep) - 1 && session.items == old(session.items) && navigations == old(navigations)
      ensures old(currentStep) == 0 ==>
                currentStep == 0 && session.items == old(session.items) - {SessionStorageKey} &&
                navigations == old(navigations) + [Push("/")]
      ensures questions == old(questions) && answers == old(answers) && advancing == old(advancing) && timer == old(timer)
      ensures isAdvancing == old(isAdvancing) && showLoginModal == old(showLoginModal)
      ensures isLoading == old(isLoading) && error == old(error) && isRestored == old(isRestored)
    {
      if currentStep > 0 {
        currentStep := currentStep - 1;
      } else {
        ClearStoredSession(session);
        navigations := navigations + [Push("/")];
      }
    }

    /** The unmount cleanup: cancel the timer, lower the flag, and drop the
        stored session unless it is completed. */
    method Unmount()
      modifies this`timer, this`advancing, session
      ensures timer.None? && !advancing
      ensures var stored := GetStoredSession(old(session.items));
              if stored.Some? && !stored.value.completed then session.items == old(session.items) - {SessionStorageKey}
              else session.items == old(session.items)
      ensures questions == old(questions) && currentStep == old(currentStep) && answers == old(answers)
      ensures navigations == old(navigations) && isAdvancing == old(isAdvancing) && showLoginModal == old(showLoginModal)
      ensures isLoading == old(isLoading) && error == old(error) && isRestored == old(isRestored)
    {
      timer := None;
      advancing := false;
      var stored := GetStoredSession(session.items);
      if stored.Some? && !stored.value.completed {
        ClearStoredSession(session);
      }
    }
  }

  // ---------------------------------------------------------------- properties of the flow

  /** Answers saved at the last step while signed out are resumed, exactly,
      once the user has signed in and the page loads again; while still
      signed out the modal is shown instead. */
  lemma SavedAnswersResume(items: map<string, string>, answers: map<nat, string>)
    ensures ReconcileReaction(true, SavedForLogin(items, answers), true) == Resume(answers)
    ensures ReconcileReaction(true, SavedForLogin(items, answers), false) == AskLogin
  {
    var saved := SavedForLogin(items, answers);
    assert saved[PendingAnswersKey] == EncodeAnswers(answers);
    assert EncodeAnswers(answers)[0] == '{';
    AnswersRoundTrip(answers);
  }

  /** Nothing pending: the effect does nothing, signed in or not. */
  lemma NothingPendingIsIdle(items: map<string, string>, isRestored: bool, userPresent: bool)
    requires PendingAnswersKey !in items || items[PendingAnswersKey] == ""
    ensures ReconcileReaction(isRestored, items, userPresent) == Idle
  {
  }

  /** As written, a resume leaves the pending text in place, so the next time
      the page loads in the same tab it resumes the same answers again. */
  lemma ResumeRepeats(items: map<string, string>, userPresent: bool)
    requires ReconcileReaction(true, items, userPresent).Resume?
    ensures ReconcileReaction(true, AfterReconcile(items, ReconcileReaction(true, items, userPresent)), userPresent)
            == ReconcileReaction(true, items, userPresent)
  {
  }

  /** A concrete run: one answer saved for login, resumed, and then a fresh
      visit to the quiz resumes it once more instead of starting over. */
  lemma StaleResumeExample()
    ensures var items := SavedForLogin(map[], map[1 := "casual"]);
            var first := ReconcileReaction(true, items, true);
            first == Resume(map[1 := "casual"]) &&
            ReconcileReaction(true, AfterReconcile(items, first), true) == Resume(map[1 := "casual"])
  {
    SavedAnswersResume(map[], map[1 := "casual"]);
  }

  /** With the resumed text consumed, a second load of the page is idle. */
  lemma ResumeOnce(items: map<string, string>, isRestored: bool, userPresent: bool, again: bool)
    requires ReconcileReaction(isRestored, items, userPresent).Resume?
    ensures ReconcileReaction(again, AfterReconcileConsuming(items, ReconcileReaction(isRestored, items, userPresent)), userPresent) == Idle
  {
  }

  /** A parse failure is removed by both versions, so it is never retried. */
  lemma DiscardOnce(items: map<string, string>, userPresent: bool)
    requires ReconcileReaction(true, items, userPresent).Discard?
    ensures ReconcileReaction(true, AfterReconcile(items, Discard), userPresent) == Idle
    ensures ReconcileReaction(true, AfterReconcileConsuming(items, Discard), userPresent) == Idle
  {
  }
}
