/** The admin API helpers of src/api/adminApi.ts: the error envelope built
    from a caught request error, and the normalisation of a successful
    reply into the `{ success, data, error }` envelope. The HTTP call
    itself is not part of this model; its outcome is a parameter. */
module AdminApi {
  import opened Wrappers
  import Text
  import opened QuizApi

  /** What `extractApiError` reads from a caught error: the response status,
      the `error.code` and `error.message` of the response body, and the
      error's own `message`; a missing response or body reads as absent. */
  datatype CaughtError = CaughtError(status: Option<int>, code: Option<string>, serverMessage: Option<string>,
                                     message: Option<string>)

  /** A reply body: an object carrying a `success` field, taken as an
      envelope, or anything else, a bare payload; `None` stands for a falsy
      body such as `null` or an empty string, which is wrapped as it is. */
  datatype Body<T> = WithSuccess(envelope: Envelope<T>) | Bare(payload: Option<T>)

  const DashboardDefault := "대시보드 통계 조회에 실패했습니다"
  const UsersDefault := "회원 목록 조회에 실패했습니다"
  const UserDetailDefault := "회원 상세 조회에 실패했습니다"
  const StatusChangeDefault := "회원 상태 변경에 실패했습니다"

  /** `"HTTP_" + statusCode`. */
  function HttpCode(status: int): (code: string)
    ensures |code| > 5 && code[..5] == "HTTP_"
  {
    "HTTP_" + Text.IntToDecimal(status)
  }

  /** `extractApiError`: never a success; the server's code, else one made
      from the status (0 without one); the server's message, else the
      error's own, else the endpoint's default. `??` falls back only on a
      missing value, so an empty string from the server is kept. */
  function ExtractApiError<T>(e: CaughtError, defaultMessage: string): (r: Envelope<T>)
    ensures !r.success && r.data.None? && r.error.Some?
    ensures e.code.Some? ==> r.error.value.code == e.code.value
    ensures e.code.None? ==> r.error.value.code == HttpCode(e.status.GetOr(0))
    ensures e.serverMessage.Some? ==> r.error.value.message == e.serverMessage.value
    ensures e.serverMessage.None? && e.message.Some? ==> r.error.value.message == e.message.value
    ensures e.serverMessage.None? && e.message.None? ==> r.error.value.message == defaultMessage
  {
    var statusCode := e.status.GetOr(0);
    Envelope(false, None, Some(ApiError(e.code.GetOr(HttpCode(statusCode)),
                                        e.serverMessage.GetOr(e.message.GetOr(defaultMessage)))))
  }

  /** Without a server code, the status can be read back from the code. */
  lemma HttpCodeNamesStatus(status: nat, other: nat)
    ensures Text.DecimalToNat(HttpCode(status)[5..]) == status
    ensures HttpCode(status) == HttpCode(other) ==> status == other
  {
    assert HttpCode(status)[5..] == Text.IntToDecimal(status);
    assert HttpCode(other)[5..] == Text.IntToDecimal(other);
    Text.IntToDecimalRoundTrip(status);
    Text.IntToDecimalRoundTrip(other);
  }

  /** The reply normalisation every admin fetch applies: an envelope is
      passed through, anything else is wrapped as a success. */
  function Normalize<T>(body: Body<T>): (r: Envelope<T>)
    ensures body.WithSuccess? ==> r == body.envelope
    ensures body.Bare? ==> r.success && r.data == body.payload && r.error.None?
  {
    match body
    case WithSuccess(envelope) => envelope
    case Bare(payload) => Envelope(true, payload, None)
  }

  /** An admin fetch (`fetchDashboardStats`, `fetchUsers`, `fetchUserDetail`,
      `changeUserStatus`): the reply normalised, or the caught error turned
      into an envelope. It never throws. */
  function Fetch<T>(outcome: Result<Body<T>, CaughtError>, defaultMessage: string): (r: Envelope<T>)
    ensures outcome.Ok? ==> r == Normalize(outcome.value)
    ensures outcome.Err? ==> r == ExtractApiError(outcome.error, defaultMessage)
  {
    match outcome
    case Ok(body) => Normalize(body)
    case Err(e) => ExtractApiError(e, defaultMessage)
  }

  /** A failed request never reads as a success, and an error shown by a
      page comes from the failed request or from the server's own
      envelope, never from the wrapping of a bare reply. */
  lemma FetchReportsFailure<T>(outcome: Result<Body<T>, CaughtError>, defaultMessage: string)
    ensures Fetch(outcome, defaultMessage).success ==> outcome.Ok?
    ensures Fetch(outcome, defaultMessage).error.Some? ==> outcome.Err? || outcome.value.WithSuccess?
  {
  }
}
