/** The quiz session helpers of src/utils/quizApi.ts: the response-envelope
    checks shared by the four quiz endpoints, and the life cycle of the
    session record kept in session storage under "quiz_session". The HTTP
    calls themselves are parameters: `reply` is what `response.json()` gave,
    or the message of the error the request threw. */
module QuizApi {
  import opened Wrappers
  import opened Json
  import opened Storage
  import opened Routing

  datatype QuizSession = QuizSession(sessionId: int, userId: Option<int>, quizId: int, completed: bool, createdAt: string)

  datatype ApiError = ApiError(code: string, message: string)

  /** The `{ success, data?, error? }` envelope every quiz endpoint returns. */
  datatype Envelope<T> = Envelope(success: bool, data: Option<T>, error: Option<ApiError>)

  datatype QuizProgress = QuizProgress(sessionId: int, totalQuestions: nat, answeredCount: nat, completed: bool,
                                       answers: seq<(nat, string)>)

  datatype SaveAnswerResponse = SaveAnswerResponse(questionId: nat, selectedOptions: seq<string>)

  datatype CompleteSessionResponse = CompleteSessionResponse(sessionId: int, completed: bool, completedAt: string)

  const SessionStorageKey := "quiz_session"

  // ---------------------------------------------------------------- envelope checks

  /** The checks after `response.json()`: an error field or `success == false`
      throws (with "code: message" when there is an error field, else the
      endpoint's `failure` text), a missing `data` throws the endpoint's
      `missing` text, and a request that threw passes its message on. */
  function Unwrap<T>(reply: Result<Envelope<T>, string>, failure: string, missing: string): (r: Result<T, string>)
    ensures r.Ok? <==> reply.Ok? && reply.value.error.None? && reply.value.success && reply.value.data.Some?
    ensures r.Ok? ==> r.value == reply.value.data.value
    ensures reply.Err? ==> r == Err(reply.error)
    ensures reply.Ok? && reply.value.error.Some? ==>
              r == Err(reply.value.error.value.code + ": " + reply.value.error.value.message)
    ensures reply.Ok? && reply.value.error.None? && !reply.value.success ==> r == Err(failure)
    ensures reply.Ok? && reply.value.error.None? && reply.value.success && reply.value.data.None? ==> r == Err(missing)
  {
    match reply
    case Err(thrown) => Err(thrown)
    case Ok(envelope) =>
      if envelope.error.Some? || !envelope.success then
        match envelope.error
        case Some(e) => Err(e.code + ": " + e.message)
        case None => Err(failure)
      else if envelope.data.None? then Err(missing)
      else Ok(envelope.data.value)
  }

  /** `getQuizProgress`: takes no storage, so it cannot read or write it. */
  function GetQuizProgress(reply: Result<Envelope<QuizProgress>, string>): (r: Result<QuizProgress, string>)
    ensures r.Ok? <==> reply.Ok? && reply.value.error.None? && reply.value.success && reply.value.data.Some?
    ensures reply.Ok? && reply.value.error.None? && !reply.value.success ==> r == Err("진행 상태를 조회하는데 실패했습니다")
    ensures reply.Ok? && reply.value.error.None? && reply.value.success && reply.value.data.None? ==>
              r == Err("진행 상태 데이터 형식이 올바르지 않습니다")
  {
    Unwrap(reply, "진행 상태를 조회하는데 실패했습니다", "진행 상태 데이터 형식이 올바르지 않습니다")
  }

  /** `saveQuizAnswer`: takes no storage, so it cannot read or write it. */
  function SaveQuizAnswer(reply: Result<Envelope<SaveAnswerResponse>, string>): (r: Result<SaveAnswerResponse, string>)
    ensures r.Ok? <==> reply.Ok? && reply.value.error.None? && reply.value.success && reply.value.data.Some?
    ensures reply.Ok? && reply.value.error.None? && !reply.value.success ==> r == Err("답변을 저장하는데 실패했습니다")
    ensures reply.Ok? && reply.value.error.None? && reply.value.success && reply.value.data.None? ==>
              r == Err("답변 저장 응답 데이터가 없습니다")
  {
    Unwrap(reply, "답변을 저장하는데 실패했습니다", "답변 저장 응답 데이터가 없습니다")
  }

  // ---------------------------------------------------------------- the stored record

  function UserIdValue(userId: Option<int>): Scalar {
    match userId
    case None => JNull
    case Some(id) => JNum(id)
  }

  function SessionMembers(s: QuizSession): seq<Member> {
    [("sessionId", JNum(s.sessionId)), ("userId", UserIdValue(s.userId)), ("quizId", JNum(s.quizId)),
     ("completed", JBool(s.completed)), ("createdAt", JStr(s.createdAt))]
  }

  /** `JSON.stringify(session)`. */
  function EncodeSession(s: QuizSession): (text: string)
    ensures text != [] && text[0] == '{'
  {
    EncodeObject(SessionMembers(s))
  }

  function NumberField(ms: seq<Member>, key: string): Option<int> {
    match Lookup(ms, key)
    case Some(JNum(n)) => Some(n)
    case _ => None
  }

  /** `userId`: a number or null. */
  function UserIdField(ms: seq<Member>): Option<Option<int>> {
    match Lookup(ms, "userId")
    case Some(JNull) => Some(None)
    case Some(JNum(n)) => Some(Some(n))
    case _ => None
  }

  function BoolField(ms: seq<Member>, key: string): Option<bool> {
    match Lookup(ms, key)
    case Some(JBool(b)) => Some(b)
    case _ => None
  }

  function StringField(ms: seq<Member>, key: string): Option<string> {
    match Lookup(ms, key)
    case Some(JStr(t)) => Some(t)
    case _ => None
  }

  /** `JSON.parse(text) as QuizSession`, for a text holding a session record. */
  function DecodeSession(text: string): Option<QuizSession> {
    match ParseObject(text)
    case None => None
    case Some(ms) =>
      var sessionId := NumberField(ms, "sessionId");
      var userId := UserIdField(ms);
      var quizId := NumberField(ms, "quizId");
      var completed := BoolField(ms, "completed");
      var createdAt := StringField(ms, "createdAt");
      if sessionId.Some? && userId.Some? && quizId.Some? && completed.Some? && createdAt.Some? then
        Some(QuizSession(sessionId.value, userId.value, quizId.value, completed.value, createdAt.value))
      else None
  }

  lemma SessionRoundTrip(s: QuizSession)
    ensures DecodeSession(EncodeSession(s)) == Some(s)
  {
    var ms := SessionMembers(s);
    ObjectRoundTrip(ms);
    SessionFieldsRead(s);
  }

  /** Each field of the written record reads back. */
  lemma SessionFieldsRead(s: QuizSession)
    ensures NumberField(SessionMembers(s), "sessionId") == Some(s.sessionId)
    ensures UserIdField(SessionMembers(s)) == Some(s.userId)
    ensures NumberField(SessionMembers(s), "quizId") == Some(s.quizId)
    ensures BoolField(SessionMembers(s), "completed") == Some(s.completed)
    ensures StringField(SessionMembers(s), "createdAt") == Some(s.createdAt)
  {
    var ms := SessionMembers(s);
    assert NumberField(ms, "sessionId") == Some(s.sessionId) by {
      assert ms[1].0[0] == 'u' && ms[2].0[0] == 'q' && ms[3].0[0] == 'c' && ms[4].0[0] == 'c';
      LookupLast(ms, 0, "sessionId");
    }
    assert UserIdField(ms) == Some(s.userId) by {
      assert ms[2].0[0] == 'q' && ms[3].0[0] == 'c' && ms[4].0[0] == 'c';
      LookupLast(ms, 1, "userId");
      match s.userId {
        case None => assert Lookup(ms, "userId") == Some(JNull);
        case Some(id) => assert Lookup(ms, "userId") == Some(JNum(id));
      }
    }
    assert NumberField(ms, "quizId") == Some(s.quizId) by {
      assert ms[3].0[0] == 'c' && ms[4].0[0] == 'c';
      LookupLast(ms, 2, "quizId");
    }
    assert BoolField(ms, "completed") == Some(s.completed) by {
      assert ms[4].0[1] == 'r';
      LookupLast(ms, 3, "completed");
    }
    LookupLast(ms, 4, "createdAt");
  }

  /** `getStoredSession()` on the given session-storage contents: the record,
      or null when the key is absent or empty or its text does not parse. */
  function GetStoredSession(items: map<string, string>): Option<QuizSession> {
    var stored := if SessionStorageKey in items then Some(items[SessionStorageKey]) else None;
    if IsTruthy(stored) then DecodeSession(stored.value) else None
  }

  /** What `getStoredSession()` reads right after the record was written. */
  lemma StoredSessionRoundTrip(items: map<string, string>, s: QuizSession)
    ensures GetStoredSession(items[SessionStorageKey := EncodeSession(s)]) == Some(s)
  {
    SessionRoundTrip(s);
  }

  lemma ClearedSessionIsGone(items: map<string, string>)
    ensures GetStoredSession(items - {SessionStorageKey}) == None
  {
  }

  /** The checks `startQuizSession` makes of its reply. */
  function StartResult(reply: Result<Envelope<QuizSession>, string>): (r: Result<QuizSession, string>)
    ensures r.Ok? <==> reply.Ok? && reply.value.error.None? && reply.value.success && reply.value.data.Some?
    ensures reply.Ok? && reply.value.error.None? && !reply.value.success ==> r == Err("세션을 시작하는데 실패했습니다")
    ensures reply.Ok? && reply.value.error.None? && reply.value.success && reply.value.data.None? ==>
              r == Err("세션 데이터 형식이 올바르지 않습니다")
  {
    Unwrap(reply, "세션을 시작하는데 실패했습니다", "세션 데이터 형식이 올바르지 않습니다")
  }

  /** `startQuizSession`: the record is written only after every check passed. */
  method StartQuizSession(store: WebStorage, reply: Result<Envelope<QuizSession>, string>) returns (r: Result<QuizSession, string>)
    modifies store
    ensures r == StartResult(reply)
    ensures r.Ok? ==> store.items == old(store.items)[SessionStorageKey := EncodeSession(r.value)]
    ensures r.Ok? ==> GetStoredSession(store.items) == Some(r.value)
    ensures r.Err? ==> store.items == old(store.items)
  {
    r := StartResult(reply);
    if r.Ok? {
      store.SetItem(SessionStorageKey, EncodeSession(r.value));
      StoredSessionRoundTrip(old(store.items), r.value);
    }
  }

  /** `clearStoredSession`: only the "quiz_session" key goes. */
  method ClearStoredSession(store: WebStorage)
    modifies store
    ensures store.items == old(store.items) - {SessionStorageKey}
    ensures GetStoredSession(store.items) == None
  {
    store.RemoveItem(SessionStorageKey);
  }

  /** The storage after `completeQuizSession` succeeded: the stored record, if
      there is one, rewritten with `completed` set. */
  function MarkCompleted(items: map<string, string>): map<string, string> {
    match GetStoredSession(items)
    case None => items
    case Some(s) => items[SessionStorageKey := EncodeSession(s.(completed := true))]
  }

  /** Completion flips `completed` and keeps every other field of the record. */
  lemma MarkCompletedFlips(items: map<string, string>)
    ensures GetStoredSession(items).None? ==> MarkCompleted(items) == items
    ensures GetStoredSession(items).Some? ==>
              GetStoredSession(MarkCompleted(items)) == Some(GetStoredSession(items).value.(completed := true))
    ensures forall k :: k != SessionStorageKey && k in items ==> k in MarkCompleted(items) && MarkCompleted(items)[k] == items[k]
  {
    if GetStoredSession(items).Some? {
      StoredSessionRoundTrip(items, GetStoredSession(items).value.(completed := true));
    }
  }

  /** Completing twice leaves the same stored text as completing once. */
  lemma MarkCompletedIdempotent(items: map<string, string>)
    ensures MarkCompleted(MarkCompleted(items)) == MarkCompleted(items)
  {
    MarkCompletedFlips(items);
    if GetStoredSession(items).Some? {
      var s := GetStoredSession(items).value.(completed := true);
      assert GetStoredSession(MarkCompleted(items)) == Some(s);
      assert s.(completed := true) == s;
    }
  }

  /** The checks `completeQuizSession` makes of its reply. */
  function CompleteResult(reply: Result<Envelope<CompleteSessionResponse>, string>): (r: Result<CompleteSessionResponse, string>)
    ensures r.Ok? <==> reply.Ok? && reply.value.error.None? && reply.value.success && reply.value.data.Some?
    ensures reply.Ok? && reply.value.error.None? && !reply.value.success ==> r == Err("퀴즈 세션을 완료하는데 실패했습니다")
    ensures reply.Ok? && reply.value.error.None? && reply.value.success && reply.value.data.None? ==>
              r == Err("완료 응답 데이터가 없습니다")
  {
    Unwrap(reply, "퀴즈 세션을 완료하는데 실패했습니다", "완료 응답 데이터가 없습니다")
  }

  /** `completeQuizSession`: on success the stored record is marked completed;
      on failure storage is untouched. */
  method CompleteQuizSession(store: WebStorage, reply: Result<Envelope<CompleteSessionResponse>, string>)
    returns (r: Result<CompleteSessionResponse, string>)
    modifies store
    ensures r == CompleteResult(reply)
    ensures r.Ok? ==> store.items == MarkCompleted(old(store.items))
    ensures r.Err? ==> store.items == old(store.items)
  {
    r := CompleteResult(reply);
    if r.Ok? {
      var session := GetStoredSession(store.items);
      if session.Some? {
        store.SetItem(SessionStorageKey, EncodeSession(session.value.(completed := true)));
      }
    }
  }

  /** `navigateToQuiz`. */
  function NavigateToQuiz(): (nav: Navigation)
    ensures nav.to == "/quiz" && !nav.replace && nav.state == NoState
  {
    Push("/quiz")
  }
}
