/**
 * `errorHandling.ts`: the message the UI shows for a failed API call, taken
 * from the first non-empty of several places in the error, and the prefix
 * of the console log line.
 */
module ErrorHandling {
  import opened Wrappers
  import Exceptions
  import GlobalExceptionHandler

  /** The JSON body of an error reply, reduced to the fields the UI reads. */
  datatype ErrorData = ErrorData(errorDetail: Option<string>, detail: Option<string>, message: Option<string>)

  /** An axios error: the reply body if a reply arrived, and the error's own message. */
  datatype ApiError = ApiError(data: Option<ErrorData>, message: Option<string>)

  const UNEXPECTED := "An unexpected error occurred"

  /** A JavaScript truthy string: present and not empty. */
  predicate Truthy(s: Option<string>)
  {
    s.Some? && s.value != ""
  }

  /** The first truthy candidate, or the fallback. */
  function FirstTruthy(candidates: seq<Option<string>>, fallback: string): string
  {
    if candidates == [] then fallback
    else if Truthy(candidates[0]) then candidates[0].value
    else FirstTruthy(candidates[1..], fallback)
  }

  /** The first truthy candidate is the one chosen. */
  lemma {:induction false} FirstTruthyPicksFirst(candidates: seq<Option<string>>, fallback: string, i: int)
    requires 0 <= i < |candidates| && Truthy(candidates[i])
    requires forall j :: 0 <= j < i ==> !Truthy(candidates[j])
    ensures FirstTruthy(candidates, fallback) == candidates[i].value
  {
    if i > 0 {
      FirstTruthyPicksFirst(candidates[1..], fallback, i - 1);
    }
  }

  /** Without a truthy candidate the fallback is chosen. */
  lemma {:induction false} FirstTruthyFallback(candidates: seq<Option<string>>, fallback: string)
    requires forall j :: 0 <= j < |candidates| ==> !Truthy(candidates[j])
    ensures FirstTruthy(candidates, fallback) == fallback
  {
    if candidates != [] {
      FirstTruthyFallback(candidates[1..], fallback);
    }
  }

  /** The places the message is looked for, in priority order. */
  function Candidates(e: ApiError): seq<Option<string>>
  {
    if e.data.Some? then [e.data.value.errorDetail, e.data.value.detail, e.data.value.message, e.message]
    else [e.message]
  }

  /** `extractErrorMessage`. */
  function ExtractErrorMessage(e: ApiError): (m: string)
    ensures m != ""
  {
    if e.data.Some? && Truthy(e.data.value.errorDetail) then e.data.value.errorDetail.value
    else if e.data.Some? && Truthy(e.data.value.detail) then e.data.value.detail.value
    else if e.data.Some? && Truthy(e.data.value.message) then e.data.value.message.value
    else if Truthy(e.message) then e.message.value
    else UNEXPECTED
  }

  /** The cascade of `if`s picks the first non-empty candidate in priority order. */
  lemma ExtractIsFirstTruthy(e: ApiError)
    ensures ExtractErrorMessage(e) == FirstTruthy(Candidates(e), UNEXPECTED)
  {
    var c := Candidates(e);
    if e.data.Some? {
      var d := e.data.value;
      if Truthy(d.errorDetail) {
        FirstTruthyPicksFirst(c, UNEXPECTED, 0);
      } else if Truthy(d.detail) {
        FirstTruthyPicksFirst(c, UNEXPECTED, 1);
      } else if Truthy(d.message) {
        FirstTruthyPicksFirst(c, UNEXPECTED, 2);
      } else if Truthy(e.message) {
        FirstTruthyPicksFirst(c, UNEXPECTED, 3);
      } else {
        FirstTruthyFallback(c, UNEXPECTED);
      }
    } else if Truthy(e.message) {
      FirstTruthyPicksFirst(c, UNEXPECTED, 0);
    } else {
      FirstTruthyFallback(c, UNEXPECTED);
    }
  }

  /** The body the server's exception handler writes, as the UI receives it. */
  function FromServer(body: GlobalExceptionHandler.ErrorResponse, axiosMessage: Option<string>): ApiError
  {
    ApiError(Some(ErrorData(None, Some(body.detail), body.message)), axiosMessage)
  }

  /** For every exception the server handles, the UI shows the handler's detail whenever it is not empty. */
  lemma ServerDetailShown(e: Exceptions.AppException, axiosMessage: Option<string>)
    requires GlobalExceptionHandler.Handle(e).body.detail != ""
    ensures ExtractErrorMessage(FromServer(GlobalExceptionHandler.Handle(e).body, axiosMessage))
      == GlobalExceptionHandler.Handle(e).body.detail
  {
  }

  /** The prefix `logApiError` puts before the log line. */
  function ContextPrefix(context: Option<string>): (p: string)
    ensures Truthy(context) ==> p == "[" + context.value + "] "
    ensures !Truthy(context) ==> p == ""
  {
    if Truthy(context) then "[" + context.value + "] " else ""
  }
}
