/** The error-handling middleware `errorHandler`
    (backend/src/middleware/errorHandler.ts): the status and the message of
    the `{ success: false, error }` body sent for an error a handler passed
    on. An upstream (axios) error takes the upstream status, with fixed
    messages for the common ones; any other error its own `statusCode` and
    message. */
module ErrorHandler {
  import opened Wrappers
  import opened RiotTypes
  import opened Http

  const DEFAULT_MESSAGE: string := "Internal server error"
  const UNAVAILABLE_MESSAGE: string := "External service temporarily unavailable"

  /** The fixed message of an upstream status, if it has one. */
  function FixedMessage(status: int): Option<string> {
    if status == 400 then Some("Invalid request parameters")
    else if status == 401 then Some("Unauthorized - Invalid API key")
    else if status == 403 then Some("Forbidden - API key may have expired or lacks permissions")
    else if status == 404 then Some("Resource not found")
    else if status == 429 then Some("Rate limit exceeded - Please try again later")
    else if status == 500 || status == 502 || status == 503 || status == 504 then Some(UNAVAILABLE_MESSAGE)
    else None
  }

  /** `err.statusCode || 500` and `err.message || 'Internal server error'`
      before the upstream case is considered. */
  function DefaultStatus(err: ApiError): int {
    match err
    case AppError(_, code) => if code.Some? && code.value != 0 then code.value else INTERNAL_ERROR
    case HttpError(_, _, _, _) => INTERNAL_ERROR
  }

  function DefaultMessage(err: ApiError): string {
    if err.message != "" then err.message else DEFAULT_MESSAGE
  }

  function UpstreamStatus(status: Option<int>): int {
    if status.Some? && status.value != 0 then status.value else INTERNAL_ERROR
  }

  function HandleError(err: ApiError): (r: Response)
    ensures r.Json? && r.body.FailureBody?
  {
    match err
    case AppError(_, _) => Json(DefaultStatus(err), FailureBody(DefaultMessage(err)))
    case HttpError(status, _, dataMessage, _) =>
      var code := UpstreamStatus(status);
      var message :=
        match FixedMessage(code)
        case Some(m) => m
        case None => if dataMessage.Some? && dataMessage.value != "" then dataMessage.value else DefaultMessage(err);
      Json(code, FailureBody(message))
  }

  /** What the client receives: a handler's own answer, or the error
      handler's answer for the error it passed on. */
  function Deliver(r: Response): (d: Response)
    ensures d.Json?
    ensures r.Json? ==> d == r
  {
    match r
    case Json(_, _) => r
    case Next(e) => HandleError(e)
  }

  // ------------------------------------------------------------ properties

  /** Any other error keeps its own status, or 500, and its own message, or
      the generic one. */
  lemma AppErrorResponse(message: string, code: Option<int>)
    ensures var r := HandleError(AppError(message, code));
            && (code.Some? && code.value != 0 ==> r.status == code.value)
            && (code.None? || code.value == 0 ==> r.status == INTERNAL_ERROR)
            && (message != "" ==> r.body.error == message)
            && (message == "" ==> r.body.error == DEFAULT_MESSAGE)
  {
  }

  /** An upstream error carries the upstream status; without a response it is
      500 and reported as the upstream being unavailable, like a 5xx. */
  lemma UpstreamStatusKept(status: Option<int>, retryAfter: Option<int>, data: Option<string>, message: string)
    ensures var r := HandleError(HttpError(status, retryAfter, data, message));
            && (status.Some? && status.value != 0 ==> r.status == status.value)
            && (status.None? ==> r.status == INTERNAL_ERROR && r.body.error == UNAVAILABLE_MESSAGE)
  {
  }

  /** The five common statuses and the four unavailable ones get their fixed
      message whatever the upstream body says. */
  lemma FixedMessages(retryAfter: Option<int>, data: Option<string>, message: string)
    ensures HandleError(HttpError(Some(400), retryAfter, data, message)).body.error == "Invalid request parameters"
    ensures HandleError(HttpError(Some(401), retryAfter, data, message)).body.error == "Unauthorized - Invalid API key"
    ensures HandleError(HttpError(Some(403), retryAfter, data, message)).body.error == "Forbidden - API key may have expired or lacks permissions"
    ensures HandleError(HttpError(Some(404), retryAfter, data, message)).body.error == "Resource not found"
    ensures HandleError(HttpError(Some(429), retryAfter, data, message)).body.error == "Rate limit exceeded - Please try again later"
    ensures forall s :: s in {500, 502, 503, 504} ==> HandleError(HttpError(Some(s), retryAfter, data, message)).body.error == UNAVAILABLE_MESSAGE
  {
  }

  /** Any other upstream status reports the upstream body's message when it
      has one, else the error's own message. */
  lemma OtherStatusMessage(status: int, retryAfter: Option<int>, data: Option<string>, message: string)
    requires status != 0 && FixedMessage(status).None?
    ensures var r := HandleError(HttpError(Some(status), retryAfter, data, message));
            && r.status == status
            && (data.Some? && data.value != "" ==> r.body.error == data.value)
            && (data.None? || data.value == "" ==> r.body.error == DefaultMessage(HttpError(Some(status), retryAfter, data, message)))
  {
  }

  /** The statuses with a fixed message are exactly the nine listed. */
  lemma FixedStatuses(status: int)
    ensures FixedMessage(status).Some? <==> status in {400, 401, 403, 404, 429, 500, 502, 503, 504}
  {
  }
}
