/**
 * The controller advice that turns every exception into an HTTP status and
 * an `ErrorResponse` body (status, message, detail). Spring picks the
 * handler declared for the closest exception class; here that choice is a
 * match on the exception kind.
 */
module GlobalExceptionHandler {
  import opened Wrappers
  import opened Text
  import opened Exceptions

  datatype ErrorResponse = ErrorResponse(status: int, message: Option<string>, detail: string)

  /** What the client receives: the HTTP status line and the JSON body. */
  datatype HandledError = HandledError(httpStatus: int, body: ErrorResponse)

  /** The status WebFlux writes when a handler neither declares `@ResponseStatus` nor returns a `ResponseEntity`. */
  const DEFAULT_HTTP_STATUS: int := 200

  const CREDENTIALS_DETAIL := "Please check your username and password"
  const INVALID_GRANT_DETAIL := "Invalid username or password"
  const UNAUTHORIZED_CLIENT_DETAIL := "Invalid client credentials"
  const STATUS_DETAIL := "Operation could not be completed"
  const ACCESS_DENIED_DETAIL := "You don't have permission to access this resource"
  const SERVER_DETAIL := "Your request could not be processed"
  const LOGIN_DETAIL := "Login failed. Please check your credentials."
  const CONNECTION_DETAIL := "Service connection failed. Please try again later."
  const UNEXPECTED_DETAIL := "Your request could not be processed. Please try again later."

  /** Details that are fixed texts, never taken from the exception. */
  const FixedDetails: set<string> := {
    CREDENTIALS_DETAIL, INVALID_GRANT_DETAIL, UNAUTHORIZED_CLIENT_DETAIL, STATUS_DETAIL,
    ACCESS_DENIED_DETAIL, SERVER_DETAIL, LOGIN_DETAIL, CONNECTION_DETAIL, UNEXPECTED_DETAIL
  }

  /** An upstream error reply: always 401 "Authentication Failed", detail chosen from the reply body. */
  function WebClientResponseBody(body: string): (r: ErrorResponse)
    ensures r.status == 401 && r.message == Some("Authentication Failed")
    ensures r.detail in FixedDetails
    ensures r.detail == INVALID_GRANT_DETAIL <==> Contains(body, "invalid_grant")
    ensures r.detail == UNAUTHORIZED_CLIENT_DETAIL <==> !Contains(body, "invalid_grant") && Contains(body, "unauthorized_client")
  {
    var detail :=
      if Contains(body, "invalid_grant") then INVALID_GRANT_DETAIL
      else if Contains(body, "unauthorized_client") then UNAUTHORIZED_CLIENT_DETAIL
      else CREDENTIALS_DETAIL;
    ErrorResponse(401, Some("Authentication Failed"), detail)
  }

  /** A message that marks a failed login or token refresh. */
  predicate IsAuthFailureMessage(m: string)
  {
    Contains(m, "login failed") || Contains(m, "token refresh failed")
  }

  /** Any other `RuntimeException`: 500 by default, 401 for login failures, a connection detail for lost connections. */
  function RuntimeBody(message: Option<string>): (r: ErrorResponse)
    ensures r.status == 401 || r.status == 500
    ensures r.status == 401 <==> message.Some? && IsAuthFailureMessage(message.value)
    ensures r.status == 500 ==> r.message == Some("Server Error")
    ensures r.detail == CONNECTION_DETAIL <==>
      message.Some? && !IsAuthFailureMessage(message.value) && Contains(message.value, "No connection to")
    ensures r.detail in FixedDetails
  {
    if message.Some? && IsAuthFailureMessage(message.value) then
      ErrorResponse(401, Some("Authentication Error"), LOGIN_DETAIL)
    else if message.Some? && Contains(message.value, "No connection to") then
      ErrorResponse(500, Some("Server Error"), CONNECTION_DETAIL)
    else
      ErrorResponse(500, Some("Server Error"), SERVER_DETAIL)
  }

  /** The body each handler builds. */
  function Body(e: AppException): ErrorResponse
  {
    match e
    case ResourceNotFound(m, _) => ErrorResponse(404, Some("Resource Not Found"), m)
    case Conflict(m, _) => ErrorResponse(409, Some("Conflict"), m)
    case WebClientResponse(_, body) => WebClientResponseBody(body)
    case ResponseStatus(status, reason) => ErrorResponse(status, reason, STATUS_DETAIL)
    case AccessDenied(_) => ErrorResponse(403, Some("Access Denied"), ACCESS_DENIED_DETAIL)
    case Authentication(m, _) => ErrorResponse(401, Some("Authentication Error"), m)
    case Runtime(_, m) => RuntimeBody(m)
    case Checked(_) => ErrorResponse(500, Some("Unexpected Error"), UNEXPECTED_DETAIL)
  }

  /**
   * The handlers as written. Every handler but the one for
   * `ResponseStatusException` fixes the HTTP status by `@ResponseStatus` or
   * a `ResponseEntity`; that one declares neither, so the HTTP status stays
   * the default while the body carries the exception's status.
   */
  function HandleAsWritten(e: AppException): (r: HandledError)
    ensures r.body == Body(e)
    ensures e.ResponseStatus? ==> r.httpStatus == DEFAULT_HTTP_STATUS
    ensures !e.ResponseStatus? ==> r.httpStatus == r.body.status
  {
    var body := Body(e);
    if e.ResponseStatus? then HandledError(DEFAULT_HTTP_STATUS, body) else HandledError(body.status, body)
  }

  /** The handlers with the HTTP status always equal to the body's status. */
  function Handle(e: AppException): (r: HandledError)
    ensures r.httpStatus == r.body.status
    ensures r.body == Body(e)
  {
    var body := Body(e);
    HandledError(body.status, body)
  }

  /** The status and title of every handled exception. */
  lemma HandlerTable(e: AppException)
    ensures e.ResourceNotFound? ==> Handle(e).body == ErrorResponse(404, Some("Resource Not Found"), e.message)
    ensures e.Conflict? ==> Handle(e).body == ErrorResponse(409, Some("Conflict"), e.message)
    ensures e.WebClientResponse? ==> Handle(e).httpStatus == 401
    ensures e.ResponseStatus? ==> Handle(e).body == ErrorResponse(e.status, e.reason, STATUS_DETAIL)
    ensures e.AccessDenied? ==> Handle(e).httpStatus == 403
    ensures e.Authentication? ==> Handle(e).body == ErrorResponse(401, Some("Authentication Error"), e.message)
    ensures e.Runtime? ==> Handle(e).httpStatus in {401, 500}
    ensures e.Checked? ==> Handle(e).body == ErrorResponse(500, Some("Unexpected Error"), UNEXPECTED_DETAIL)
    ensures BoundStatus(e).Some? ==> Handle(e).httpStatus == BoundStatus(e).value
  {
  }

  /**
   * Only the not-found, conflict and authentication handlers echo the
   * exception's message; every other detail is a fixed text, so upstream
   * bodies and internal messages never reach the client.
   */
  lemma DetailsDoNotLeak(e: AppException)
    requires !e.ResourceNotFound? && !e.Conflict? && !e.Authentication?
    ensures Handle(e).body.detail in FixedDetails
  {
  }

  /** The handlers as written agree with `Handle` on every exception except `ResponseStatusException`. */
  lemma AsWrittenAgreesElsewhere(e: AppException)
    requires !e.ResponseStatus?
    ensures HandleAsWritten(e) == Handle(e)
  {
  }

  /** A `ResponseStatusException` with status 400 (a malformed query parameter) is answered with HTTP 200. */
  lemma ResponseStatusAnsweredWithOk()
    ensures HandleAsWritten(ResponseStatus(400, Some("Type mismatch."))).httpStatus == 200
    ensures HandleAsWritten(ResponseStatus(400, Some("Type mismatch."))).body.status == 400
  {
  }
}
