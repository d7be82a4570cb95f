/**
 * Calls to Airflow's REST API, abstracted to their outcome, and the
 * mapping of a failed reply to the exception the services raise:
 * `onStatus` hooks turn 404 (and for some calls 409) into the proxy's own
 * exceptions; every other error status becomes a `WebClientResponseException`.
 */
module Upstream {
  import opened Wrappers
  import opened Exceptions

  /** The outcome of one HTTP exchange with Airflow. */
  datatype Reply<T> = Success(value: T) | HttpError(status: int, body: string) | TransportError(message: string)

  /** The exception a failed reply becomes, given the `onStatus` hooks for 404 and 409 that the call installs. */
  function ReplyError<T>(reply: Reply<T>, onNotFound: Option<AppException>, onConflict: Option<AppException>): (e: AppException)
    requires !reply.Success?
    ensures reply.HttpError? && reply.status == 404 && onNotFound.Some? ==> e == onNotFound.value
    ensures reply.HttpError? && reply.status == 409 && onConflict.Some? ==> e == onConflict.value
    ensures reply.HttpError? && !(reply.status == 404 && onNotFound.Some?) && !(reply.status == 409 && onConflict.Some?)
      ==> e == WebClientResponse(reply.status, reply.body)
    ensures reply.TransportError? ==> e == Runtime(ConnectionFailure, Some(reply.message))
  {
    match reply
    case HttpError(status, body) =>
      if status == 404 && onNotFound.Some? then onNotFound.value
      else if status == 409 && onConflict.Some? then onConflict.value
      else WebClientResponse(status, body)
    case TransportError(message) => Runtime(ConnectionFailure, Some(message))
  }

  /** The body of a successful reply, or the exception of a failed one. */
  function Outcome<T>(reply: Reply<T>, onNotFound: Option<AppException>, onConflict: Option<AppException>): (r: Result<T, AppException>)
    ensures r.Ok? <==> reply.Success?
    ensures reply.Success? ==> r.value == reply.value
    ensures !reply.Success? ==> r.error == ReplyError(reply, onNotFound, onConflict)
  {
    if reply.Success? then Ok(reply.value) else Err(ReplyError(reply, onNotFound, onConflict))
  }
}
