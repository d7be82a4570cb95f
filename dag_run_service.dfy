/**
 * `DagRunService`: proxies the DAG-run endpoints of Airflow. Creating,
 * updating and clearing a run audit after Airflow accepted the request;
 * deleting a run audits first; reading a run, its upstream dataset events
 * and setting its note write no audit row.
 */
module DagRunService {
  import opened Wrappers
  import opened Exceptions
  import opened AuditLogEntity
  import opened AuditLogRepository
  import opened AuditLogService
  import opened AirflowDtos
  import opened Upstream
  import opened Effects
  import opened GlobalExceptionHandler
  import Dags = DagService

  /** A query parameter as `queryParams` yields it: a name and a possibly null value. */
  type QueryEntry = (string, Option<string>)

  /** The query parameters forwarded to Airflow: the entries whose value is non-null and non-empty, in iteration order. */
  function ForwardedParams(entries: seq<QueryEntry>): (r: seq<(string, string)>)
    ensures |r| <= |entries|
  {
    if entries == [] then []
    else
      var last := entries[|entries| - 1];
      ForwardedParams(entries[..|entries| - 1]) + (if last.1.Some? && last.1.value != "" then [(last.0, last.1.value)] else [])
  }

  /** A parameter is forwarded exactly when an entry carries it with a non-null, non-empty value. */
  lemma {:induction false} ForwardedParamsMembership(entries: seq<QueryEntry>, name: string, value: string)
    ensures (name, value) in ForwardedParams(entries) <==> value != "" && (name, Some(value)) in entries
    decreases |entries|
  {
    if entries != [] {
      var init := entries[..|entries| - 1];
      ForwardedParamsMembership(init, name, value);
      assert entries == init + [entries[|entries| - 1]];
    }
  }

  lemma {:induction false} ForwardedParamsAppend(a: seq<QueryEntry>, b: seq<QueryEntry>)
    ensures ForwardedParams(a + b) == ForwardedParams(a) + ForwardedParams(b)
    decreases |b|
  {
    if b == [] {
      assert a + b == a;
    } else {
      ForwardedParamsAppend(a, b[..|b| - 1]);
      assert (a + b)[..|a + b| - 1] == a + b[..|b| - 1];
    }
  }

  /** Forwarding is idempotent: parameters already forwarded are forwarded unchanged. */
  lemma {:induction false} ForwardedParamsIdempotent(params: seq<(string, string)>)
    requires forall i :: 0 <= i < |params| ==> params[i].1 != ""
    ensures ForwardedParams(seq(|params|, i requires 0 <= i < |params| => (params[i].0, Some(params[i].1)))) == params
    decreases |params|
  {
    if params != [] {
      var init := params[..|params| - 1];
      ForwardedParamsIdempotent(init);
      var lifted := seq(|params|, i requires 0 <= i < |params| => (params[i].0, Some(params[i].1)));
      assert lifted[..|lifted| - 1] == seq(|init|, i requires 0 <= i < |init| => (init[i].0, Some(init[i].1)));
      assert params == init + [params[|params| - 1]];
    }
  }

  /** The URI-builder loop of `getDagRuns`: a null map adds no parameter. */
  method QueryParams(queryParams: Option<seq<QueryEntry>>) returns (params: seq<(string, string)>)
    ensures queryParams.None? ==> params == []
    ensures queryParams.Some? ==> params == ForwardedParams(queryParams.value)
  {
    params := [];
    if queryParams.Some? {
      var entries := queryParams.value;
      var i := 0;
      while i < |entries|
        invariant 0 <= i <= |entries|
        invariant params == ForwardedParams(entries[..i])
      {
        var entry := entries[i];
        if entry.1.Some? && entry.1.value != "" {
          params := params + [(entry.0, entry.1.value)];
        }
        assert entries[..i + 1] == entries[..i] + [entry];
        ForwardedParamsAppend(entries[..i], [entry]);
        i := i + 1;
      }
      assert entries[..i] == entries;
    }
  }

  function RunNotFound(dagRunId: string): AppException
  {
    NotFound("DAG run not found: " + dagRunId)
  }

  /** The `String.format` message of `getDagRun`, `getUpstreamDatasetEvents` and `setDagRunNote`. */
  function RunNotFoundFormatted(dagId: string, dagRunId: string): AppException
  {
    NotFound("DAG Run not found: dagId=" + dagId + ", dagRunId=" + dagRunId)
  }

  const RUN_CONFLICT := ConflictWithMessage("DAG Run already exists or conflict with execution date")

  /** The details `createDagRun` records; `logicalDate` is the rendering of the requested date, if any. */
  function TriggerDetails(logicalDate: Option<string>): (d: string)
    ensures logicalDate.None? ==> d == "Triggered DAG run"
    ensures logicalDate.Some? ==> d == "Triggered DAG run for date: " + logicalDate.value
  {
    "Triggered DAG run" + if logicalDate.Some? then " for date: " + logicalDate.value else ""
  }

  /** The recorded details name the requested date: different dates give different details. */
  lemma TriggerDetailsInjective(a: Option<string>, b: Option<string>)
    ensures TriggerDetails(a) == TriggerDetails(b) ==> a == b
  {
    if TriggerDetails(a) == TriggerDetails(b) {
      var prefix := "Triggered DAG run for date: ";
      if a.Some? && b.Some? {
        assert a.value == TriggerDetails(a)[|prefix|..];
        assert b.value == TriggerDetails(b)[|prefix|..];
      }
    }
  }

  /** The details `updateDagRunState` records; Java renders a null state as "null". */
  function StateDetails(state: Option<string>): (d: string)
    ensures state.Some? ==> d == "Updated state to: " + state.value
    ensures state.None? ==> d == "Updated state to: null"
  {
    "Updated state to: " + state.UnwrapOr("null")
  }

  /** The details `deleteDagRun` records. */
  function DeleteRunDetails(dagId: string, dagRunId: string): string
  {
    "Deleted DAG run: " + dagRunId + " for DAG: " + dagId
  }

  /** For one DAG, the recorded details of a run deletion name the run. */
  lemma DeleteRunDetailsInjective(dagId: string, a: string, b: string)
    ensures DeleteRunDetails(dagId, a) == DeleteRunDetails(dagId, b) <==> a == b
  {
    if DeleteRunDetails(dagId, a) == DeleteRunDetails(dagId, b) {
      var prefix := "Deleted DAG run: ";
      var suffix := " for DAG: " + dagId;
      assert |a| == |b|;
      assert a == DeleteRunDetails(dagId, a)[|prefix|..|prefix| + |a|];
      assert b == DeleteRunDetails(dagId, b)[|prefix|..|prefix| + |b|];
    }
  }

  /** `getDagRuns`: the body, "DAG not found" on 404, the raw error otherwise. */
  function ListDagRunsOutcome<T>(dagId: string, reply: Reply<T>): (r: Result<T, AppException>)
    ensures r.Ok? <==> reply.Success?
    ensures reply.HttpError? && reply.status == 404 ==> r == Err(Dags.DagNotFound(dagId))
    ensures reply.HttpError? && reply.status != 404 ==> r == Err(WebClientResponse(reply.status, reply.body))
  {
    Outcome(reply, Some(Dags.DagNotFound(dagId)), None)
  }

  /** `getDagRun`, `getUpstreamDatasetEvents`, `setDagRunNote`: the formatted not-found message on 404. */
  function ReadRunOutcome<T>(dagId: string, dagRunId: string, reply: Reply<T>): (r: Result<T, AppException>)
    ensures r.Ok? <==> reply.Success?
    ensures r.Ok? ==> r.value == reply.value
    ensures reply.HttpError? && reply.status == 404 ==> r == Err(RunNotFoundFormatted(dagId, dagRunId))
    ensures reply.HttpError? && reply.status != 404 ==> r == Err(WebClientResponse(reply.status, reply.body))
  {
    Outcome(reply, Some(RunNotFoundFormatted(dagId, dagRunId)), None)
  }

  /** `createDagRun`: the mapped POST error, else the audit failure, else the new run. */
  function CreateDagRunOutcome(dagId: string, reply: Reply<DagRun>, auditError: Option<AppException>): (r: Result<DagRun, AppException>)
    ensures r.Ok? <==> reply.Success? && auditError.None?
    ensures r.Ok? ==> r.value == reply.value
    ensures reply.Success? && auditError.Some? ==> r == Err(auditError.value)
    ensures reply.HttpError? && reply.status == 404 ==> r == Err(Dags.DagNotFound(dagId))
    ensures reply.HttpError? && reply.status == 409 ==> r == Err(RUN_CONFLICT)
    ensures reply.HttpError? && reply.status != 404 && reply.status != 409 ==>
      r == Err(WebClientResponse(reply.status, reply.body))
  {
    if !reply.Success? then Err(ReplyError(reply, Some(Dags.DagNotFound(dagId)), Some(RUN_CONFLICT)))
    else if auditError.Some? then Err(auditError.value)
    else Ok(reply.value)
  }

  /** `updateDagRunState`, `clearDagRun`: "DAG run not found" on 404, every other error raw, then the audit failure. */
  function RunMutationOutcome(dagRunId: string, reply: Reply<DagRun>, auditError: Option<AppException>): (r: Result<DagRun, AppException>)
    ensures r.Ok? <==> reply.Success? && auditError.None?
    ensures r.Ok? ==> r.value == reply.value
    ensures reply.Success? && auditError.Some? ==> r == Err(auditError.value)
    ensures reply.HttpError? && reply.status == 404 ==> r == Err(RunNotFound(dagRunId))
    ensures reply.HttpError? && reply.status != 404 ==> r == Err(WebClientResponse(reply.status, reply.body))
  {
    if !reply.Success? then Err(ReplyError(reply, Some(RunNotFound(dagRunId)), None))
    else if auditError.Some? then Err(auditError.value)
    else Ok(reply.value)
  }

  /** `deleteDagRun`: the audit failure, in which case Airflow is never asked; else the DELETE outcome with 404 mapped. */
  function DeleteDagRunOutcome(dagRunId: string, auditError: Option<AppException>, reply: Reply<()>): (r: Result<(), AppException>)
    ensures r.Ok? <==> auditError.None? && reply.Success?
    ensures auditError.Some? ==> r == Err(auditError.value)
    ensures auditError.None? && reply.HttpError? && reply.status == 404 ==> r == Err(RunNotFound(dagRunId))
    ensures auditError.None? && reply.HttpError? && reply.status != 404 ==>
      r == Err(WebClientResponse(reply.status, reply.body))
  {
    if auditError.Some? then Err(auditError.value)
    else Outcome(reply, Some(RunNotFound(dagRunId)), None)
  }

  /**
   * A 409 from Airflow on deleting a run has no hook of its own: it reaches
   * the client through the generic `WebClientResponseException` handler,
   * which answers 401 "Authentication Failed".
   */
  lemma RunDeleteConflictAnsweredAsAuthFailure(dagRunId: string, body: string)
    ensures DeleteDagRunOutcome(dagRunId, None, HttpError(409, body)).Err?
    ensures Handle(DeleteDagRunOutcome(dagRunId, None, HttpError(409, body)).error).httpStatus == 401
  {
  }

  class DagRunService {
    const audit: AuditLogTable
    const effects: EffectLog

    ghost predicate Valid()
      reads this, audit, effects
    {
      audit.Valid() && effects.Valid() && Recorded(audit.rows, effects.events)
    }

    constructor (audit: AuditLogTable, effects: EffectLog)
      requires audit.Valid() && effects.Valid() && Recorded(audit.rows, effects.events)
      ensures Valid() && this.audit == audit && this.effects == effects
    {
      this.audit := audit;
      this.effects := effects;
    }

    /** A call that writes no audit row. */
    method Read<T>(call: Call, reply: Reply<T>, onNotFound: Option<AppException>) returns (r: Result<T, AppException>)
      requires Valid() && !IsDeleteCall(call)
      modifies effects
      ensures Valid()
      ensures r == Outcome(reply, onNotFound, None)
      ensures effects.events == old(effects.events) + CallBlock(call, reply.Success?)
    {
      CallRecorded(audit.rows, effects.events, call, reply.Success?);
      effects.events := effects.events + CallBlock(call, reply.Success?);
      r := Outcome(reply, onNotFound, None);
    }

    /** `getDagRuns(dagId, queryParams)`; `query` is what is appended to the URI. */
    method GetDagRuns<T>(dagId: string, queryParams: Option<seq<QueryEntry>>, reply: Reply<T>)
      returns (query: seq<(string, string)>, r: Result<T, AppException>)
      requires Valid()
      modifies effects
      ensures Valid()
      ensures queryParams.None? ==> query == []
      ensures queryParams.Some? ==> query == ForwardedParams(queryParams.value)
      ensures r == ListDagRunsOutcome(dagId, reply)
      ensures effects.events == old(effects.events) + [Upstream(ListDagRuns, reply.Success?)]
    {
      query := QueryParams(queryParams);
      r := Read(Call.ListDagRuns, reply, Some(Dags.DagNotFound(dagId)));
    }

    /** `getDagRuns(dagId)`: the same with a null parameter map. */
    method GetAllDagRuns<T>(dagId: string, reply: Reply<T>) returns (query: seq<(string, string)>, r: Result<T, AppException>)
      requires Valid()
      modifies effects
      ensures Valid()
      ensures query == []
      ensures r == ListDagRunsOutcome(dagId, reply)
      ensures effects.events == old(effects.events) + [Upstream(ListDagRuns, reply.Success?)]
    {
      query, r := GetDagRuns(dagId, None, reply);
    }

    method GetDagRun(dagId: string, dagRunId: string, reply: Reply<DagRun>) returns (r: Result<DagRun, AppException>)
      requires Valid()
      modifies effects
      ensures Valid()
      ensures r == ReadRunOutcome(dagId, dagRunId, reply)
      ensures effects.events == old(effects.events) + [Upstream(Call.GetDagRun, reply.Success?)]
    {
      r := Read(Call.GetDagRun, reply, Some(RunNotFoundFormatted(dagId, dagRunId)));
    }

    method GetUpstreamDatasetEvents<T>(dagId: string, dagRunId: string, reply: Reply<T>) returns (r: Result<T, AppException>)
      requires Valid()
      modifies effects
      ensures Valid()
      ensures r == ReadRunOutcome(dagId, dagRunId, reply)
      ensures effects.events == old(effects.events) + [Upstream(GetDatasetEvents, reply.Success?)]
    {
      r := Read(GetDatasetEvents, reply, Some(RunNotFoundFormatted(dagId, dagRunId)));
    }

    /** `setDagRunNote`: a write Airflow performs that is never audited. */
    method SetDagRunNote(dagId: string, dagRunId: string, reply: Reply<DagRun>) returns (r: Result<DagRun, AppException>)
      requires Valid()
      modifies effects
      ensures Valid()
      ensures r == ReadRunOutcome(dagId, dagRunId, reply)
      ensures effects.events == old(effects.events) + [Upstream(Call.SetDagRunNote, reply.Success?)]
    {
      r := Read(Call.SetDagRunNote, reply, Some(RunNotFoundFormatted(dagId, dagRunId)));
    }

    /** The audit row written after Airflow accepted `call`, and its event when stored. */
    method RecordAfter(call: Call, op: Operation, dagId: string, dagRunId: Option<string>, details: string,
                       ctx: SecurityContext, now: int, storage: StorageOutcome)
      returns (failure: Option<AppException>)
      requires Valid() && !IsDeleteCall(call) && AuditedAfter(call, op)
      modifies audit, effects
      ensures Valid()
      ensures failure == AuditError(ctx, Some(dagId), dagRunId, Some(op), details, now, storage)
      ensures effects.events == old(effects.events) + MutationBlock(call, true, op, failure.None?)
      ensures failure.None? ==>
        audit.rows == old(audit.rows) + [AuditRow(ctx, Some(dagId), dagRunId, Some(op), details, now).value.(id := old(audit.nextId))]
      ensures failure.Some? ==> audit.rows == old(audit.rows)
    {
      ghost var rowsBefore := audit.rows;
      var logged := LogOperation(audit, ctx, Some(dagId), dagRunId, Some(op), details, now, storage);
      failure := if logged.Ok? then None else Some(logged.error);
      ghost var added := if logged.Ok? then [logged.value] else [];
      assert audit.rows == rowsBefore + added;
      MutationRecorded(rowsBefore, effects.events, call, true, op, logged.Ok?, added);
      effects.events := effects.events + MutationBlock(call, true, op, logged.Ok?);
    }

    /** A rejected write: the failed call is logged and nothing is audited. */
    method Rejected(call: Call, op: Operation)
      requires Valid() && !IsDeleteCall(call) && AuditedAfter(call, op)
      modifies effects
      ensures Valid()
      ensures effects.events == old(effects.events) + MutationBlock(call, false, op, false)
    {
      MutationRecorded(audit.rows, effects.events, call, false, op, false, []);
      assert audit.rows + [] == audit.rows;
      effects.events := effects.events + MutationBlock(call, false, op, false);
    }

    /** `createDagRun`: POST, then, only if Airflow accepted it, a TRIGGER row naming the run Airflow created. */
    method CreateDagRun(dagId: string, logicalDate: Option<string>, reply: Reply<DagRun>,
                        ctx: SecurityContext, now: int, storage: StorageOutcome)
      returns (r: Result<DagRun, AppException>)
      requires Valid()
      modifies audit, effects
      ensures Valid()
      ensures !reply.Success? ==> r == CreateDagRunOutcome(dagId, reply, None) && audit.rows == old(audit.rows)
      ensures !reply.Success? ==> effects.events == old(effects.events) + [Upstream(PostDagRun, false)]
      ensures reply.Success? ==> r == CreateDagRunOutcome(dagId, reply,
        AuditError(ctx, Some(dagId), reply.value.dagRunId, Some(Trigger), TriggerDetails(logicalDate), now, storage))
      ensures reply.Success? ==> effects.events == old(effects.events) + MutationBlock(PostDagRun, true, Trigger,
        AuditError(ctx, Some(dagId), reply.value.dagRunId, Some(Trigger), TriggerDetails(logicalDate), now, storage).None?)
      ensures r.Ok? ==> audit.rows == old(audit.rows) +
                        [AuditRow(ctx, Some(dagId), reply.value.dagRunId, Some(Trigger), TriggerDetails(logicalDate), now)
                           .value.(id := old(audit.nextId))]
      ensures r.Err? ==> audit.rows == old(audit.rows)
    {
      if !reply.Success? {
        Rejected(PostDagRun, Trigger);
        r := Err(ReplyError(reply, Some(Dags.DagNotFound(dagId)), Some(RUN_CONFLICT)));
      } else {
        var failure := RecordAfter(PostDagRun, Trigger, dagId, reply.value.dagRunId, TriggerDetails(logicalDate), ctx, now, storage);
        r := if failure.Some? then Err(failure.value) else Ok(reply.value);
      }
    }

    /** `updateDagRunState`: PATCH, then, only if Airflow accepted it, an UPDATE_STATE row. */
    method UpdateDagRunState(dagId: string, dagRunId: string, state: Option<string>, reply: Reply<DagRun>,
                             ctx: SecurityContext, now: int, storage: StorageOutcome)
      returns (r: Result<DagRun, AppException>)
      requires Valid()
      modifies audit, effects
      ensures Valid()
      ensures r == RunMutationOutcome(dagRunId, reply,
        AuditError(ctx, Some(dagId), Some(dagRunId), Some(UpdateState), StateDetails(state), now, storage))
      ensures effects.events == old(effects.events) + MutationBlock(PatchDagRun, reply.Success?, UpdateState,
        AuditError(ctx, Some(dagId), Some(dagRunId), Some(UpdateState), StateDetails(state), now, storage).None?)
      ensures r.Ok? ==> audit.rows == old(audit.rows) +
                        [AuditRow(ctx, Some(dagId), Some(dagRunId), Some(UpdateState), StateDetails(state), now)
                           .value.(id := old(audit.nextId))]
      ensures r.Err? ==> audit.rows == old(audit.rows)
    {
      if !reply.Success? {
        Rejected(PatchDagRun, UpdateState);
        r := Err(ReplyError(reply, Some(RunNotFound(dagRunId)), None));
      } else {
        var failure := RecordAfter(PatchDagRun, UpdateState, dagId, Some(dagRunId), StateDetails(state), ctx, now, storage);
        r := if failure.Some? then Err(failure.value) else Ok(reply.value);
      }
    }

    /** `clearDagRun`: POST to `clear`, then, only if Airflow accepted it, a CLEAR row. */
    method ClearDagRun(dagId: string, dagRunId: string, reply: Reply<DagRun>,
                       ctx: SecurityContext, now: int, storage: StorageOutcome)
      returns (r: Result<DagRun, AppException>)
      requires Valid()
      modifies audit, effects
      ensures Valid()
      ensures r == RunMutationOutcome(dagRunId, reply,
        AuditError(ctx, Some(dagId), Some(dagRunId), Some(Clear), "Cleared DAG run", now, storage))
      ensures effects.events == old(effects.events) + MutationBlock(Call.ClearDagRun, reply.Success?, Clear,
        AuditError(ctx, Some(dagId), Some(dagRunId), Some(Clear), "Cleared DAG run", now, storage).None?)
      ensures r.Ok? ==> audit.rows == old(audit.rows) +
                        [AuditRow(ctx, Some(dagId), Some(dagRunId), Some(Clear), "Cleared DAG run", now)
                           .value.(id := old(audit.nextId))]
      ensures r.Err? ==> audit.rows == old(audit.rows)
    {
      if !reply.Success? {
        Rejected(Call.ClearDagRun, Clear);
        r := Err(ReplyError(reply, Some(RunNotFound(dagRunId)), None));
      } else {
        var failure := RecordAfter(Call.ClearDagRun, Clear, dagId, Some(dagRunId), "Cleared DAG run", ctx, now, storage);
        r := if failure.Some? then Err(failure.value) else Ok(reply.value);
      }
    }

    /** `deleteDagRun`: the DELETE audit row first; the DELETE is issued only once that row is stored. */
    method DeleteDagRun(dagId: string, dagRunId: string, ctx: SecurityContext, now: int, storage: StorageOutcome,
                        reply: Reply<()>)
      returns (r: Result<(), AppException>)
      requires Valid()
      modifies audit, effects
      ensures Valid()
      ensures r == DeleteDagRunOutcome(dagRunId,
        AuditError(ctx, Some(dagId), Some(dagRunId), Some(Delete), DeleteRunDetails(dagId, dagRunId), now, storage), reply)
      ensures effects.events == old(effects.events) + DeleteBlock(Call.DeleteDagRun, reply.Success?,
        AuditError(ctx, Some(dagId), Some(dagRunId), Some(Delete), DeleteRunDetails(dagId, dagRunId), now, storage).None?)
      ensures AuditError(ctx, Some(dagId), Some(dagRunId), Some(Delete), DeleteRunDetails(dagId, dagRunId), now, storage).None? ==>
        audit.rows == old(audit.rows) +
                      [AuditRow(ctx, Some(dagId), Some(dagRunId), Some(Delete), DeleteRunDetails(dagId, dagRunId), now)
                         .value.(id := old(audit.nextId))]
      ensures AuditError(ctx, Some(dagId), Some(dagRunId), Some(Delete), DeleteRunDetails(dagId, dagRunId), now, storage).Some? ==>
        audit.rows == old(audit.rows)
    {
      var failure := RecordBefore(Call.DeleteDagRun, dagId, dagRunId, DeleteRunDetails(dagId, dagRunId), ctx, now, storage,
                                  reply.Success?);
      if failure.Some? {
        r := Err(failure.value);
      } else {
        r := Outcome(reply, Some(RunNotFound(dagRunId)), None);
      }
    }

    /** The `DELETE` audit row written before the delete `call`, and the call itself once the row is stored. */
    method RecordBefore(call: Call, dagId: string, dagRunId: string, details: string, ctx: SecurityContext, now: int,
                        storage: StorageOutcome, succeeded: bool)
      returns (failure: Option<AppException>)
      requires Valid() && IsDeleteCall(call)
      modifies audit, effects
      ensures Valid()
      ensures failure == AuditError(ctx, Some(dagId), Some(dagRunId), Some(Delete), details, now, storage)
      ensures effects.events == old(effects.events) + DeleteBlock(call, succeeded, failure.None?)
      ensures failure.None? ==>
        audit.rows == old(audit.rows)
                      + [AuditRow(ctx, Some(dagId), Some(dagRunId), Some(Delete), details, now).value.(id := old(audit.nextId))]
      ensures failure.Some? ==> audit.rows == old(audit.rows)
    {
      ghost var rowsBefore := audit.rows;
      var logged := LogOperation(audit, ctx, Some(dagId), Some(dagRunId), Some(Delete), details, now, storage);
      failure := if logged.Ok? then None else Some(logged.error);
      ghost var added := if logged.Ok? then [logged.value] else [];
      assert audit.rows == rowsBefore + added;
      DeleteRecorded(rowsBefore, effects.events, call, succeeded, logged.Ok?, added);
      effects.events := effects.events + DeleteBlock(call, succeeded, logged.Ok?);
    }
  }
}
