/**
 * `DagRunController.getDagRuns`: the optional `state` and `dag_run_id`
 * request parameters become a map of query parameters for the service.
 */
module DagRunController {
  import opened Wrappers
  import opened Exceptions
  import opened Upstream
  import opened Effects
  import Runs = DagRunService

  /** Whether a request parameter is worth forwarding: present and non-empty. */
  predicate Given(value: Option<string>)
  {
    value.Some? && value.value != ""
  }

  /** The `HashMap` of query parameters, built by conditional `put`s. */
  method QueryMap(state: Option<string>, dagRunId: Option<string>) returns (m: map<string, string>)
    ensures "state" in m <==> Given(state)
    ensures "dag_run_id" in m <==> Given(dagRunId)
    ensures Given(state) ==> m["state"] == state.value
    ensures Given(dagRunId) ==> m["dag_run_id"] == dagRunId.value
    ensures forall k :: k in m ==> k == "state" || k == "dag_run_id"
  {
    m := map[];
    if state.Some? && state.value != "" {
      m := m["state" := state.value];
    }
    if dagRunId.Some? && dagRunId.value != "" {
      m := m["dag_run_id" := dagRunId.value];
    }
  }

  /** The map's entries as the service iterates them; the iteration order of the `HashMap` is taken as `state` first. */
  function Entries(m: map<string, string>): (entries: seq<Runs.QueryEntry>)
    ensures forall i :: 0 <= i < |entries| ==> entries[i].0 in m && entries[i].1 == Some(m[entries[i].0])
    ensures forall k :: k in m && (k == "state" || k == "dag_run_id") ==> (k, Some(m[k])) in entries
  {
    (if "state" in m then [("state", Some(m["state"]))] else [])
    + (if "dag_run_id" in m then [("dag_run_id", Some(m["dag_run_id"]))] else [])
  }

  /**
   * `getDagRuns(dagId, state, dagRunId)`: Airflow is queried with exactly
   * the given, non-empty filters.
   */
  method GetDagRuns<T>(service: Runs.DagRunService, dagId: string, state: Option<string>, dagRunId: Option<string>,
                       reply: Reply<T>)
    returns (query: seq<(string, string)>, r: Result<T, AppException>)
    requires service.Valid()
    modifies service.effects
    ensures service.Valid()
    ensures ("state", state.UnwrapOr("")) in query <==> Given(state)
    ensures ("dag_run_id", dagRunId.UnwrapOr("")) in query <==> Given(dagRunId)
    ensures forall i :: 0 <= i < |query| ==> query[i].0 == "state" || query[i].0 == "dag_run_id"
    ensures r == Runs.ListDagRunsOutcome(dagId, reply)
    ensures service.effects.events == old(service.effects.events) + [Upstream(ListDagRuns, reply.Success?)]
  {
    var m := QueryMap(state, dagRunId);
    var entries := Entries(m);
    query, r := service.GetDagRuns(dagId, Some(entries), reply);
    forall i | 0 <= i < |query| ensures query[i].0 == "state" || query[i].0 == "dag_run_id" {
      Runs.ForwardedParamsMembership(entries, query[i].0, query[i].1);
    }
    Runs.ForwardedParamsMembership(entries, "state", state.UnwrapOr(""));
    Runs.ForwardedParamsMembership(entries, "dag_run_id", dagRunId.UnwrapOr(""));
  }
}
