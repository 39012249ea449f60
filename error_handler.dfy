/**
  * Normalising whatever a failed request threw into an `ApiError` with a status code, a
  * message and, for HTTP-client errors, the response body.
  */
module ErrorHandler {
  import opened Wrappers

  /** A response body; only its `message` field is read. `rest` stands for its other fields. */
  datatype ErrorBody = ErrorBody(message: Option<string>, rest: string)

  /** The response an HTTP-client error may carry; `data` is its body, when there is one. */
  datatype ErrorResponse = ErrorResponse(status: int, data: Option<ErrorBody>)

  /**
    * What a request can throw: an HTTP-client (axios) error, with or without a response; any
    * other value that is not `null` or `undefined`, whose `message` property may be missing; or
    * `null`/`undefined` itself.
    */
  datatype Thrown =
    | HttpClientError(response: Option<ErrorResponse>, message: string)
    | OtherError(errorMessage: Option<string>)
    | Nullish

  datatype ApiError = ApiError(name: string, statusCode: int, message: string, data: Option<ErrorBody>)

  /**
    * How a call of `handleApiError` ends: it returns an `ApiError`, or reading `.message` of a
    * `null`/`undefined` error raises a `TypeError` out of it.
    */
  datatype Outcome = Returned(apiError: ApiError) | RaisesTypeError

  const FallbackHttpMessage := "Something went wrong"
  const FallbackMessage := "An unexpected error occurred"

  /** The `ApiError` constructor: it is named `'ApiError'` and stores the message it is given. */
  function NewApiError(statusCode: int, message: string, data: Option<ErrorBody>): (e: ApiError)
    ensures e.name == "ApiError" && e.statusCode == statusCode && e.message == message && e.data == data
  {
    ApiError("ApiError", statusCode, message, data)
  }

  /** `x || fallback` for an optional string: the empty string is falsy too. */
  function OrElse(x: Option<string>, fallback: string): (r: string)
    ensures x.Some? && x.value != "" ==> r == x.value
    ensures x.None? || x.value == "" ==> r == fallback
  {
    if x.Some? && x.value != "" then x.value else fallback
  }

  /** `error.response?.data?.message`. */
  function BodyMessage(response: Option<ErrorResponse>): Option<string> {
    if response.Some? && response.value.data.Some? then response.value.data.value.message else None
  }

  /**
    * `handleApiError(error)`. For an HTTP-client error: the response status, or 500 when there is
    * no response or its status is 0; the body's message, or a fixed message when it is missing or
    * empty; and the body. For any other non-nullish value: 500, its own message or a fixed message,
    * no body. For `null` or `undefined`, `(error as Error).message` raises a `TypeError`.
    */
  function HandleApiError(error: Thrown): (r: Outcome)
    ensures r.RaisesTypeError? <==> error.Nullish?
    ensures r.Returned? ==> r.apiError.name == "ApiError"
    ensures error.HttpClientError? ==>
      var e := r.apiError;
      e.statusCode == (if error.response.Some? && error.response.value.status != 0 then error.response.value.status else 500) &&
      e.message == (if BodyMessage(error.response).Some? && BodyMessage(error.response).value != ""
                    then BodyMessage(error.response).value else FallbackHttpMessage) &&
      e.data == (if error.response.Some? then error.response.value.data else None)
    ensures error.OtherError? ==>
      var e := r.apiError;
      e.statusCode == 500 &&
      e.message == (if error.errorMessage.Some? && error.errorMessage.value != "" then error.errorMessage.value else FallbackMessage) &&
      e.data == None
  {
    match error
    case HttpClientError(response, _) =>
      var statusCode := if response.Some? && response.value.status != 0 then response.value.status else 500;
      var message := OrElse(BodyMessage(response), FallbackHttpMessage);
      Returned(NewApiError(statusCode, message, if response.Some? then response.value.data else None))
    case OtherError(message) =>
      Returned(NewApiError(500, OrElse(message, FallbackMessage), None))
    case Nullish =>
      RaisesTypeError
  }

  /** Whenever an `ApiError` is returned, it has a non-zero status code and a non-empty message. */
  lemma HandleApiErrorNeverBlank(error: Thrown)
    ensures HandleApiError(error).Returned? ==>
      HandleApiError(error).apiError.statusCode != 0 && HandleApiError(error).apiError.message != ""
  {
  }

  /** An HTTP-client error's own `message` is never used: only the response body's is. */
  lemma HttpClientMessageIgnored(response: Option<ErrorResponse>, m1: string, m2: string)
    ensures HandleApiError(HttpClientError(response, m1)) == HandleApiError(HttpClientError(response, m2))
  {
  }
}
