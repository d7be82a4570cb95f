/**
 * `TaskLog`: the try-number choices, which ids the viewer uses, the guard
 * before fetching, the text shown for an empty log, and the name of the
 * downloaded file.
 */
module TaskLog {
  import opened Wrappers
  import opened Text
  import TaskInstances

  /** The `maxTryNumber` prop, which defaults to 1 when not passed. */
  function MaxTryProp(maxTryNumber: Option<int>): int
  {
    if maxTryNumber.Some? then maxTryNumber.value else 1
  }

  /** `tryOptions`: the numbers 1, 2, …, `maxTryNumber`, built by pushing in a counting loop. */
  method TryOptions(maxTryNumber: int) returns (options: seq<int>)
    ensures |options| == if maxTryNumber < 1 then 0 else maxTryNumber
    ensures forall k :: 0 <= k < |options| ==> options[k] == k + 1
  {
    options := [];
    var i := 1;
    while i <= maxTryNumber
      invariant 1 <= i && (maxTryNumber < 1 ==> i == 1) && (maxTryNumber >= 1 ==> i <= maxTryNumber + 1)
      invariant |options| == i - 1
      invariant forall k :: 0 <= k < |options| ==> options[k] == k + 1
      decreases maxTryNumber - i
    {
      options := options + [i];
      i := i + 1;
    }
  }

  /** The log viewer opened from the table of task instances always offers at least the first try when the try number is not negative. */
  method OptionsFromTaskTable(tryNumber: Option<int>) returns (options: seq<int>)
    requires tryNumber.None? || tryNumber.value >= 0
    ensures options != [] && options[0] == 1
    ensures |options| == TaskInstances.MaxTryNumber(tryNumber)
  {
    options := TryOptions(TaskInstances.MaxTryNumber(tryNumber));
  }

  /** `prop || param`: an id passed as a prop wins over the route parameter unless it is empty. */
  function ResolveId(prop: Option<string>, param: Option<string>): (id: Option<string>)
    ensures prop.Some? && prop.value != "" ==> id == prop
    ensures prop.None? || prop == Some("") ==> id == param
  {
    if prop.Some? && prop.value != "" then prop else param
  }

  /** An id the fetch accepts: present and not empty. */
  predicate Given(id: Option<string>)
  {
    id.Some? && id.value != ""
  }

  const MISSING_PARAMETERS := "Missing required parameters to fetch logs"
  const NO_LOGS := "No logs available for this try number"
  const FETCH_FAILED := "Failed to fetch logs"

  /** The arguments of one `getTaskLogs` call. */
  datatype LogRequest = LogRequest(dagId: string, dagRunId: string, taskId: string, tryNumber: int)

  /** Template-literal rendering of a possibly undefined value. */
  function Show(id: Option<string>): string
  {
    if id.Some? then id.value else "undefined"
  }

  /** The name the downloaded log is saved under. */
  function DownloadName(dagId: Option<string>, taskId: Option<string>, tryNumber: int): string
  {
    Show(dagId) + "_" + Show(taskId) + "_try" + ShowInt(tryNumber) + ".log"
  }

  /** Downloads of different tries of the same task get different names. */
  lemma DownloadNamesDistinct(dagId: Option<string>, taskId: Option<string>, a: int, b: int)
    requires DownloadName(dagId, taskId, a) == DownloadName(dagId, taskId, b)
    ensures a == b
  {
    var prefix := Show(dagId) + "_" + Show(taskId) + "_try";
    assert DownloadName(dagId, taskId, a) == prefix + (ShowInt(a) + ".log");
    assert DownloadName(dagId, taskId, b) == prefix + (ShowInt(b) + ".log");
    CancelFrame(prefix, ShowInt(a), ShowInt(b), ".log");
    ShowIntInjective(a, b);
  }

  /** Text between the same prefix and the same suffix is determined by the whole. */
  lemma CancelFrame(p: string, x: string, y: string, q: string)
    requires p + (x + q) == p + (y + q)
    ensures x == y
  {
    assert (p + (x + q))[|p|..] == x + q;
    assert (p + (y + q))[|p|..] == y + q;
    assert x == (x + q)[..|x|];
    assert y == (y + q)[..|y|];
  }

  /** The viewer's state: the log text, the loading flag, the error and the selected try. */
  class TaskLogView {
    var logs: Option<string>
    var loading: bool
    var error: Option<string>
    var tryNumber: int

    constructor ()
      ensures logs.None? && !loading && error.None? && tryNumber == 1
    {
      logs := None;
      loading := false;
      error := None;
      tryNumber := 1;
    }

    /**
     * `fetchLogs` with the resolved ids and the outcome of the log service
     * (the text, possibly null, or the error's message).
     */
    method FetchLogs(dagId: Option<string>, dagRunId: Option<string>, taskId: Option<string>,
                     fetched: Result<Option<string>, string>) returns (request: Option<LogRequest>)
      modifies this
      ensures tryNumber == old(tryNumber)
      ensures !(Given(dagId) && Given(dagRunId) && Given(taskId)) ==>
        request.None? && error == Some(MISSING_PARAMETERS) && logs == old(logs) && loading == old(loading)
      ensures Given(dagId) && Given(dagRunId) && Given(taskId) ==>
        request == Some(LogRequest(dagId.value, dagRunId.value, taskId.value, old(tryNumber))) && !loading
      ensures request.Some? && fetched.Ok? ==>
        error.None? && logs.Some? && logs.value != ""
        && logs.value == (if fetched.value.Some? && fetched.value.value != "" then fetched.value.value else NO_LOGS)
      ensures request.Some? && fetched.Err? ==>
        logs == old(logs) && error == Some(if fetched.error != "" then fetched.error else FETCH_FAILED)
    {
      if !Given(dagId) || !Given(dagRunId) || !Given(taskId) {
        error := Some(MISSING_PARAMETERS);
        return None;
      }
      loading := true;
      error := None;
      request := Some(LogRequest(dagId.value, dagRunId.value, taskId.value, tryNumber));
      if fetched.Ok? {
        logs := Some(if fetched.value.Some? && fetched.value.value != "" then fetched.value.value else NO_LOGS);
      } else {
        error := Some(if fetched.error != "" then fetched.error else FETCH_FAILED);
      }
      loading := false;
    }

    /** Choosing another try in the selector. */
    method SelectTry(n: int)
      modifies this
      ensures tryNumber == n && logs == old(logs) && error == old(error) && loading == old(loading)
    {
      tryNumber := n;
    }
  }
}
