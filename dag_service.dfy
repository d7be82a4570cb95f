/**
 * `DagService`: proxies the DAG endpoints of Airflow. Reads map a 404 to
 * "DAG not found"; `updateDag` audits after Airflow accepted the PATCH;
 * `deleteDag` audits before it issues the DELETE and issues nothing when
 * the audit row cannot be written.
 */
module DagService {
  import opened Wrappers
  import opened Exceptions
  import opened AuditLogEntity
  import opened AuditLogRepository
  import opened AuditLogService
  import opened AirflowDtos
  import opened Upstream
  import opened Effects

  function DagNotFound(dagId: string): AppException
  {
    NotFound("DAG not found: " + dagId)
  }

  /** The operation `updateDag` records: PAUSE or UNPAUSE when `isPaused` is given, UPDATE_STATE otherwise. */
  function UpdateOperation(isPaused: Option<bool>): (op: Operation)
    ensures op == Pause <==> isPaused == Some(true)
    ensures op == Unpause <==> isPaused == Some(false)
    ensures op == UpdateState <==> isPaused.None?
  {
    match isPaused
    case Some(paused) => if paused then Pause else Unpause
    case None => UpdateState
  }

  /** The details `updateDag` records. */
  function UpdateDetails(isPaused: Option<bool>): (d: string)
    ensures d == "Updated DAG: paused" <==> isPaused == Some(true)
    ensures d == "Updated DAG: unpaused" <==> isPaused == Some(false)
    ensures d == "Updated DAG: updated" <==> isPaused.None?
  {
    "Updated DAG: " + match isPaused
      case Some(paused) => if paused then "paused" else "unpaused"
      case None => "updated"
  }

  /** The recorded details and operation of an update tell the same story, and a PATCH may be followed by either. */
  lemma UpdateDetailsMatchOperation(a: Option<bool>, b: Option<bool>)
    ensures UpdateDetails(a) == UpdateDetails(b) <==> UpdateOperation(a) == UpdateOperation(b)
    ensures AuditedAfter(PatchDag, UpdateOperation(a))
  {
  }

  /** `getDag`, `getDagTasks`, `getDagDetails`: the body, "DAG not found" on 404, the raw error otherwise. */
  function ReadDagOutcome<T>(dagId: string, reply: Reply<T>): (r: Result<T, AppException>)
    ensures r.Ok? <==> reply.Success?
    ensures r.Ok? ==> r.value == reply.value
    ensures reply.HttpError? && reply.status == 404 ==> r == Err(DagNotFound(dagId))
    ensures reply.HttpError? && reply.status != 404 ==> r == Err(WebClientResponse(reply.status, reply.body))
    ensures reply.TransportError? ==> r == Err(Runtime(ConnectionFailure, Some(reply.message)))
  {
    Outcome(reply, Some(DagNotFound(dagId)), None)
  }

  /** `getDags` installs no status hook: a 404 is an ordinary error reply. */
  function ListDagsOutcome(reply: Reply<DagCollection>): (r: Result<DagCollection, AppException>)
    ensures r.Ok? <==> reply.Success?
    ensures r.Ok? ==> r.value == reply.value
    ensures reply.HttpError? ==> r == Err(WebClientResponse(reply.status, reply.body))
  {
    Outcome(reply, None, None)
  }

  /** `updateDag`: the mapped PATCH error, else the audit failure, else the updated DAG. */
  function UpdateDagOutcome(dagId: string, reply: Reply<Dag>, auditError: Option<AppException>): (r: Result<Dag, AppException>)
    ensures r.Ok? <==> reply.Success? && auditError.None?
    ensures r.Ok? ==> r.value == reply.value
    ensures reply.Success? && auditError.Some? ==> r == Err(auditError.value)
    ensures reply.HttpError? && reply.status == 404 ==> r == Err(DagNotFound(dagId))
    ensures reply.HttpError? && reply.status == 409 ==> r == Err(ConflictWithMessage("Conflict updating DAG: " + dagId))
    ensures reply.HttpError? && reply.status != 404 && reply.status != 409 ==>
      r == Err(WebClientResponse(reply.status, reply.body))
  {
    var patched := Outcome(reply, Some(DagNotFound(dagId)), Some(ConflictWithMessage("Conflict updating DAG: " + dagId)));
    if patched.Err? then patched
    else if auditError.Some? then Err(auditError.value)
    else patched
  }

  /** `deleteDag`: the audit failure, in which case Airflow is never asked; else the mapped DELETE outcome. */
  function DeleteDagOutcome(dagId: string, auditError: Option<AppException>, reply: Reply<()>): (r: Result<(), AppException>)
    ensures r.Ok? <==> auditError.None? && reply.Success?
    ensures auditError.Some? ==> r == Err(auditError.value)
    ensures auditError.None? && reply.HttpError? && reply.status == 404 ==> r == Err(DagNotFound(dagId))
    ensures auditError.None? && reply.HttpError? && reply.status == 409 ==>
      r == Err(ConflictWithMessage("Cannot delete DAG with running instances: " + dagId))
    ensures auditError.None? && reply.HttpError? && reply.status != 404 && reply.status != 409 ==>
      r == Err(WebClientResponse(reply.status, reply.body))
  {
    if auditError.Some? then Err(auditError.value)
    else Outcome(reply, Some(DagNotFound(dagId)), Some(ConflictWithMessage("Cannot delete DAG with running instances: " + dagId)))
  }

  /** The failure, if any, of the audit row a DAG-level operation writes. */
  function DagAuditError(ctx: SecurityContext, dagId: string, op: Operation, details: string, now: int,
                         storage: StorageOutcome): Option<AppException>
  {
    AuditError(ctx, Some(dagId), None, Some(op), details, now, storage)
  }

  /**
   * The service, with the audit table it writes through `AuditLogService`
   * and the log of what it has done. The Airflow reply, the caller's
   * security context, the clock and the outcome of the INSERT are inputs
   * of each operation.
   */
  class DagService {
    const audit: AuditLogTable
    const effects: EffectLog

    ghost predicate Valid()
      reads this, audit, effects
    {
      audit.Valid() && effects.Valid() && Recorded(audit.rows, effects.events)
    }

    constructor (audit: AuditLogTable, effects: EffectLog)
      requires audit.Valid() && effects.Valid() && Recorded(audit.rows, effects.events)
      ensures Valid() && this.audit == audit && this.effects == effects
    {
      this.audit := audit;
      this.effects := effects;
    }

    /** A call that writes no audit row. */
    method Read<T>(call: Call, reply: Reply<T>, onNotFound: Option<AppException>) returns (r: Result<T, AppException>)
      requires Valid() && !IsDeleteCall(call)
      modifies effects
      ensures Valid()
      ensures r == Outcome(reply, onNotFound, None)
      ensures effects.events == old(effects.events) + CallBlock(call, reply.Success?)
    {
      CallRecorded(audit.rows, effects.events, call, reply.Success?);
      effects.events := effects.events + CallBlock(call, reply.Success?);
      r := Outcome(reply, onNotFound, None);
    }

    method GetDags(reply: Reply<DagCollection>) returns (r: Result<DagCollection, AppException>)
      requires Valid()
      modifies effects
      ensures Valid()
      ensures r == ListDagsOutcome(reply)
      ensures effects.events == old(effects.events) + [Upstream(Call.ListDags, reply.Success?)]
    {
      r := Read(Call.ListDags, reply, None);
    }

    method GetDag(dagId: string, reply: Reply<Dag>) returns (r: Result<Dag, AppException>)
      requires Valid()
      modifies effects
      ensures Valid()
      ensures r == ReadDagOutcome(dagId, reply)
      ensures effects.events == old(effects.events) + [Upstream(Call.GetDag, reply.Success?)]
    {
      r := Read(Call.GetDag, reply, Some(DagNotFound(dagId)));
    }

    /** `getDagTasks`; a task collection is passed through untouched. */
    method GetDagTasks<T>(dagId: string, reply: Reply<T>) returns (r: Result<T, AppException>)
      requires Valid()
      modifies effects
      ensures Valid()
      ensures r == ReadDagOutcome(dagId, reply)
      ensures effects.events == old(effects.events) + [Upstream(Call.GetDagTasks, reply.Success?)]
    {
      r := Read(Call.GetDagTasks, reply, Some(DagNotFound(dagId)));
    }

    /** `getDagDetails`; the detail record is passed through untouched. */
    method GetDagDetails<T>(dagId: string, reply: Reply<T>) returns (r: Result<T, AppException>)
      requires Valid()
      modifies effects
      ensures Valid()
      ensures r == ReadDagOutcome(dagId, reply)
      ensures effects.events == old(effects.events) + [Upstream(Call.GetDagDetails, reply.Success?)]
    {
      r := Read(Call.GetDagDetails, reply, Some(DagNotFound(dagId)));
    }

    /** The audit row written after Airflow accepted `call`, and its event when stored. */
    method RecordAfter(call: Call, op: Operation, dagId: string, details: string,
                       ctx: SecurityContext, now: int, storage: StorageOutcome)
      returns (failure: Option<AppException>)
      requires Valid() && !IsDeleteCall(call) && AuditedAfter(call, op)
      modifies audit, effects
      ensures Valid()
      ensures failure == DagAuditError(ctx, dagId, op, details, now, storage)
      ensures effects.events == old(effects.events) + MutationBlock(call, true, op, failure.None?)
      ensures failure.None? ==>
        audit.rows == old(audit.rows) + [AuditRow(ctx, Some(dagId), None, Some(op), details, now).value.(id := old(audit.nextId))]
      ensures failure.Some? ==> audit.rows == old(audit.rows)
    {
      ghost var rowsBefore := audit.rows;
      var logged := LogDagOperation(audit, ctx, Some(dagId), Some(op), details, now, storage);
      failure := if logged.Ok? then None else Some(logged.error);
      ghost var added := if logged.Ok? then [logged.value] else [];
      assert audit.rows == rowsBefore + added;
      MutationRecorded(rowsBefore, effects.events, call, true, op, logged.Ok?, added);
      effects.events := effects.events + MutationBlock(call, true, op, logged.Ok?);
    }

    /** A rejected write: the failed call is logged and nothing is audited. */
    method Rejected(call: Call, op: Operation)
      requires Valid() && !IsDeleteCall(call) && AuditedAfter(call, op)
      modifies effects
      ensures Valid()
      ensures effects.events == old(effects.events) + MutationBlock(call, false, op, false)
    {
      MutationRecorded(audit.rows, effects.events, call, false, op, false, []);
      assert audit.rows + [] == audit.rows;
      effects.events := effects.events + MutationBlock(call, false, op, false);
    }

    /** `updateDag`: PATCH, then, only if Airflow accepted it, one audit row. */
    method UpdateDag(dagId: string, isPaused: Option<bool>, reply: Reply<Dag>,
                     ctx: SecurityContext, now: int, storage: StorageOutcome)
      returns (r: Result<Dag, AppException>)
      requires Valid()
      modifies audit, effects
      ensures Valid()
      ensures r == UpdateDagOutcome(dagId, reply,
        DagAuditError(ctx, dagId, UpdateOperation(isPaused), UpdateDetails(isPaused), now, storage))
      ensures effects.events == old(effects.events) + MutationBlock(Call.PatchDag, reply.Success?, UpdateOperation(isPaused),
        DagAuditError(ctx, dagId, UpdateOperation(isPaused), UpdateDetails(isPaused), now, storage).None?)
      ensures r.Ok? ==> audit.rows == old(audit.rows) +
                        [AuditRow(ctx, Some(dagId), None, Some(UpdateOperation(isPaused)), UpdateDetails(isPaused), now)
                           .value.(id := old(audit.nextId))]
      ensures r.Err? ==> audit.rows == old(audit.rows)
    {
      var op := UpdateOperation(isPaused);
      var details := UpdateDetails(isPaused);
      if !reply.Success? {
        Rejected(Call.PatchDag, op);
        r := Err(ReplyError(reply, Some(DagNotFound(dagId)), Some(ConflictWithMessage("Conflict updating DAG: " + dagId))));
      } else {
        var failure := RecordAfter(Call.PatchDag, op, dagId, details, ctx, now, storage);
        r := if failure.Some? then Err(failure.value) else Ok(reply.value);
      }
    }

    /** `deleteDag`: the DELETE audit row first; the DELETE is issued only once that row is stored. */
    method DeleteDag(dagId: string, ctx: SecurityContext, now: int, storage: StorageOutcome, reply: Reply<()>)
      returns (r: Result<(), AppException>)
      requires Valid()
      modifies audit, effects
      ensures Valid()
      ensures r == DeleteDagOutcome(dagId, DagAuditError(ctx, dagId, Delete, "Deleted DAG: " + dagId, now, storage), reply)
      ensures effects.events == old(effects.events) +
        DeleteBlock(Call.DeleteDag, reply.Success?, DagAuditError(ctx, dagId, Delete, "Deleted DAG: " + dagId, now, storage).None?)
      ensures DagAuditError(ctx, dagId, Delete, "Deleted DAG: " + dagId, now, storage).None? ==>
        audit.rows == old(audit.rows) +
                      [AuditRow(ctx, Some(dagId), None, Some(Delete), "Deleted DAG: " + dagId, now).value.(id := old(audit.nextId))]
      ensures DagAuditError(ctx, dagId, Delete, "Deleted DAG: " + dagId, now, storage).Some? ==> audit.rows == old(audit.rows)
    {
      var failure := RecordBefore(Call.DeleteDag, dagId, "Deleted DAG: " + dagId, ctx, now, storage, reply.Success?);
      if failure.Some? {
        r := Err(failure.value);
      } else {
        r := Outcome(reply, Some(DagNotFound(dagId)),
                     Some(ConflictWithMessage("Cannot delete DAG with running instances: " + dagId)));
      }
    }

    /** The `DELETE` audit row written before the delete `call`, and the call itself once the row is stored. */
    method RecordBefore(call: Call, dagId: string, details: string, ctx: SecurityContext, now: int,
                        storage: StorageOutcome, succeeded: bool)
      returns (failure: Option<AppException>)
      requires Valid() && IsDeleteCall(call)
      modifies audit, effects
      ensures Valid()
      ensures failure == DagAuditError(ctx, dagId, Delete, details, now, storage)
      ensures effects.events == old(effects.events) + DeleteBlock(call, succeeded, failure.None?)
      ensures failure.None? ==>
        audit.rows == old(audit.rows) + [AuditRow(ctx, Some(dagId), None, Some(Delete), details, now).value.(id := old(audit.nextId))]
      ensures failure.Some? ==> audit.rows == old(audit.rows)
    {
      ghost var rowsBefore := audit.rows;
      var logged := LogDagOperation(audit, ctx, Some(dagId), Some(Delete), details, now, storage);
      failure := if logged.Ok? then None else Some(logged.error);
      ghost var added := if logged.Ok? then [logged.value] else [];
      assert audit.rows == rowsBefore + added;
      DeleteRecorded(rowsBefore, effects.events, call, succeeded, logged.Ok?, added);
      effects.events := effects.events + DeleteBlock(call, succeeded, logged.Ok?);
    }
  }
}
