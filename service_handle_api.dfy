/**
  * The service-layer `handleApi` wrapper: it awaits a request and turns its outcome, success or
  * failure, into an `ApiResponse` record instead of letting an exception escape; only a
  * `null` or `undefined` rejection reason still makes it throw.
  */
module ServiceHandleApi {
  import opened Wrappers

  /** A successful HTTP response. */
  datatype Response<T> = Response(data: T, status: int)

  /** A failed request's response body; only its `message` field is read. */
  datatype ErrorBody = ErrorBody(message: Option<string>)

  datatype ErrorResponse = ErrorResponse(status: int, data: Option<ErrorBody>)

  /** A non-nullish value the request was rejected with; it may lack a response and a message. */
  datatype RequestFailure = RequestFailure(response: Option<ErrorResponse>, message: Option<string>)

  /** The rejection reason: a value whose properties can be read, or `null`/`undefined`. */
  datatype Reason = Failure(failure: RequestFailure) | NullishReason

  /** How the awaited request settled. */
  datatype Settled<T> = Fulfilled(response: Response<T>) | Rejected(reason: Reason)

  /** `{ data, error, status }`: `data` and `error` are `null` when absent. */
  datatype ApiResponse<T> = ApiResponse(data: Option<T>, error: Option<string>, status: int)

  /**
    * How the promise `handleApi` returns settles: with an `ApiResponse`, or rejected with the
    * `TypeError` that reading `error.response` of a `null`/`undefined` reason raises in the `catch`.
    */
  datatype Handled<T> = Resolved(result: ApiResponse<T>) | RejectsWithTypeError

  const FallbackMessage := "An error occurred"

  /** `error.response?.data?.message || error.message || 'An error occurred'`. */
  function FailureMessage(f: RequestFailure): (m: string)
    ensures m != ""
    ensures var body := if f.response.Some? && f.response.value.data.Some? then f.response.value.data.value.message else None;
      if body.Some? && body.value != "" then m == body.value
      else if f.message.Some? && f.message.value != "" then m == f.message.value
      else m == FallbackMessage
  {
    var body := if f.response.Some? && f.response.value.data.Some? then f.response.value.data.value.message else None;
    if body.Some? && body.value != "" then body.value
    else if f.message.Some? && f.message.value != "" then f.message.value
    else FallbackMessage
  }

  /** `error.response?.status || 500`. */
  function FailureStatus(f: RequestFailure): (s: int)
    ensures s != 0
    ensures f.response.Some? && f.response.value.status != 0 ==> s == f.response.value.status
    ensures f.response.None? || f.response.value.status == 0 ==> s == 500
  {
    if f.response.Some? && f.response.value.status != 0 then f.response.value.status else 500
  }

  /**
    * `handleApi(promise)`: a success carries the response data and status and no error; a failure
    * carries no data, the first non-empty message of the fallback chain and the status or 500. A
    * `null`/`undefined` rejection reason makes the `catch` block itself throw.
    */
  function HandleApi<T>(outcome: Settled<T>): (r: Handled<T>)
    ensures r.RejectsWithTypeError? <==> outcome.Rejected? && outcome.reason.NullishReason?
    ensures outcome.Fulfilled? ==>
      r.result == ApiResponse(Some(outcome.response.data), None, outcome.response.status)
    ensures outcome.Rejected? && outcome.reason.Failure? ==>
      var f := outcome.reason.failure;
      r.result == ApiResponse(None, Some(FailureMessage(f)), FailureStatus(f))
  {
    match outcome
    case Fulfilled(response) => Resolved(ApiResponse(Some(response.data), None, response.status))
    case Rejected(Failure(failure)) => Resolved(ApiResponse(None, Some(FailureMessage(failure)), FailureStatus(failure)))
    case Rejected(NullishReason) => RejectsWithTypeError
  }

  /**
    * Whenever the wrapper resolves, the result tells the two outcomes apart: it carries an error
    * exactly when the request failed, and then that error is non-empty, the status is non-zero and
    * there is no data.
    */
  lemma HandleApiDistinguishesOutcomes<T>(outcome: Settled<T>)
    ensures HandleApi(outcome).Resolved? ==>
      var r := HandleApi(outcome).result;
      (r.error.Some? <==> outcome.Rejected?) &&
      (r.data.Some? <==> outcome.Fulfilled?) &&
      (outcome.Rejected? ==> r.error.value != "" && r.status != 0)
  {
  }
}
