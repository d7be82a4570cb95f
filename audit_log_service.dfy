/**
 * `AuditLogService`: validating writes of audit rows on behalf of the
 * caller identified by the request's token, and role-gated reads where an
 * administrator sees every row and anyone else only the rows carrying
 * their own `sub`.
 */
module AuditLogService {
  import opened Wrappers
  import opened Text
  import opened Seqs
  import opened Exceptions
  import opened Claims
  import opened AuditLogEntity
  import opened AuditLogRepository

  /** What `ReactiveSecurityContextHolder` yields for the current request. */
  datatype SecurityContext = NoSecurityContext | NonJwtAuthentication | JwtAuthentication(jwt: Jwt)

  const DAG_ID_ERROR := Runtime(IllegalArgument, Some("DAG ID cannot be null or empty"))
  const OPERATION_ERROR := Runtime(IllegalArgument, Some("Operation type cannot be null"))
  const NOT_JWT_ERROR := Runtime(IllegalState, Some("User not authenticated with JWT token"))
  const NO_USER_ID_ERROR := Runtime(IllegalState, Some("User ID could not be extracted from JWT"))
  /** Without a security context the success callback dereferences a missing row. */
  const NO_CONTEXT_ERROR := Runtime(NullPointer, None)

  /**
   * `hasAdminRole`: `realm_access.roles` is an array holding `airflow-admin`.
   * A missing or non-object `realm_access`, a missing `roles` entry or one
   * that is not an array all mean "not an administrator".
   */
  predicate HasAdminRole(jwt: Jwt)
  {
    HasRealmRoleList(jwt) && ADMIN_ROLE in jwt.realmAccess.roles.items
  }

  /** `dagId == null || dagId.trim().isEmpty()`. */
  predicate MissingDagId(dagId: Option<string>)
  {
    dagId.None? || IsBlank(dagId.value)
  }

  /**
   * The row a `logOperation` call would store, or the exception it fails
   * with. The checks run in the source's order: DAG id, operation, security
   * context, `sub` claim. The key is filled in by the table.
   */
  function AuditRow(ctx: SecurityContext, dagId: Option<string>, dagRunId: Option<string>,
                    operation: Option<Operation>, details: string, now: int): (r: Result<AuditLog, AppException>)
    ensures MissingDagId(dagId) ==> r == Err(DAG_ID_ERROR)
    ensures !MissingDagId(dagId) && operation.None? ==> r == Err(OPERATION_ERROR)
    ensures r.Ok? <==> !MissingDagId(dagId) && operation.Some? && ctx.JwtAuthentication?
                       && ctx.jwt.sub.Some? && !IsBlank(ctx.jwt.sub.value)
    ensures r.Ok? ==> r.value.userId == ctx.jwt.sub.value
    ensures r.Ok? ==> r.value.username == ctx.jwt.preferredUsername.UnwrapOr("unknown")
    ensures r.Ok? ==> r.value.dagId == dagId.value && r.value.dagRunId == dagRunId
    ensures r.Ok? ==> r.value.operation == operation.value && r.value.details == details
    ensures r.Ok? ==> r.value.operationTime == now
  {
    if MissingDagId(dagId) then Err(DAG_ID_ERROR)
    else if operation.None? then Err(OPERATION_ERROR)
    else match ctx
      case NoSecurityContext => Err(NO_CONTEXT_ERROR)
      case NonJwtAuthentication => Err(NOT_JWT_ERROR)
      case JwtAuthentication(jwt) =>
        if jwt.sub.None? || IsBlank(jwt.sub.value) then Err(NO_USER_ID_ERROR)
        else Ok(AuditLog(0, jwt.sub.value, jwt.preferredUsername.UnwrapOr("unknown"), dagId.value, dagRunId,
                         operation.value, now, details))
  }

  /** Why `logOperation` fails, if it does: the row cannot be built, or the INSERT fails. */
  function AuditError(ctx: SecurityContext, dagId: Option<string>, dagRunId: Option<string>,
                      operation: Option<Operation>, details: string, now: int, storage: StorageOutcome): (e: Option<AppException>)
    ensures e.None? <==> AuditRow(ctx, dagId, dagRunId, operation, details, now).Ok? && storage.Stored?
    ensures AuditRow(ctx, dagId, dagRunId, operation, details, now).Err? ==>
      e == Some(AuditRow(ctx, dagId, dagRunId, operation, details, now).error)
  {
    var row := AuditRow(ctx, dagId, dagRunId, operation, details, now);
    if row.Err? then Some(row.error)
    else if storage.StorageFailure? then Some(StorageError(storage.message))
    else None
  }

  /**
   * `logOperation(dagId, dagRunId, operation, details)`: stores exactly one
   * row, or fails and stores nothing. `now` is the server clock and
   * `storage` what the database does with the INSERT.
   */
  method LogOperation(table: AuditLogTable, ctx: SecurityContext, dagId: Option<string>, dagRunId: Option<string>,
                      operation: Option<Operation>, details: string, now: int, storage: StorageOutcome)
    returns (r: Result<AuditLog, AppException>)
    requires table.Valid()
    modifies table
    ensures table.Valid()
    ensures AuditRow(ctx, dagId, dagRunId, operation, details, now).Err? ==>
      r == Err(AuditRow(ctx, dagId, dagRunId, operation, details, now).error) && unchanged(table)
    ensures AuditRow(ctx, dagId, dagRunId, operation, details, now).Ok? && storage.StorageFailure? ==>
      r == Err(StorageError(storage.message)) && table.rows == old(table.rows)
    ensures AuditRow(ctx, dagId, dagRunId, operation, details, now).Ok? && storage.Stored? ==>
      r == Ok(AuditRow(ctx, dagId, dagRunId, operation, details, now).value.(id := old(table.nextId)))
      && table.rows == old(table.rows) + [r.value]
    ensures r.Ok? ==> table.rows == old(table.rows) + [r.value]
    ensures r.Err? ==> table.rows == old(table.rows)
    ensures r.Err? <==> AuditError(ctx, dagId, dagRunId, operation, details, now, storage).Some?
    ensures r.Err? ==> r.error == AuditError(ctx, dagId, dagRunId, operation, details, now, storage).value
  {
    var row := AuditRow(ctx, dagId, dagRunId, operation, details, now);
    if row.Err? {
      r := Err(row.error);
    } else {
      r := table.Save(row.value, storage);
    }
  }

  /** `logOperation(dagId, operation, details)`: the same, recording no DAG run. */
  method LogDagOperation(table: AuditLogTable, ctx: SecurityContext, dagId: Option<string>,
                         operation: Option<Operation>, details: string, now: int, storage: StorageOutcome)
    returns (r: Result<AuditLog, AppException>)
    requires table.Valid()
    modifies table
    ensures table.Valid()
    ensures AuditRow(ctx, dagId, None, operation, details, now).Err? ==>
      r == Err(AuditRow(ctx, dagId, None, operation, details, now).error) && unchanged(table)
    ensures r.Ok? ==> table.rows == old(table.rows) + [r.value]
    ensures r.Ok? ==> r.value.dagRunId == None
    ensures r.Err? ==> table.rows == old(table.rows)
    ensures r.Err? <==> AuditError(ctx, dagId, None, operation, details, now, storage).Some?
    ensures r.Err? ==> r.error == AuditError(ctx, dagId, None, operation, details, now, storage).value
    ensures r.Ok? ==> r.value == AuditRow(ctx, dagId, None, operation, details, now).value.(id := old(table.nextId))
  {
    if MissingDagId(dagId) {
      r := Err(DAG_ID_ERROR);
    } else if operation.None? {
      r := Err(OPERATION_ERROR);
    } else {
      r := LogOperation(table, ctx, dagId, None, operation, details, now, storage);
    }
  }

  // Role-gated reads

  /** The rows whose `userId` is the caller's `sub`; a token without `sub` owns none. */
  function OwnedBy(sub: Option<string>): AuditLog -> bool
  {
    (l: AuditLog) => sub == Some(l.userId)
  }

  /** `getAuditLogs`. */
  function GetAuditLogs(rows: seq<AuditLog>, ctx: SecurityContext): (r: Result<seq<AuditLog>, AppException>)
    ensures ctx.NoSecurityContext? ==> r == Ok([])
    ensures ctx.NonJwtAuthentication? ==> r == Err(NOT_JWT_ERROR)
    ensures ctx.JwtAuthentication? ==> r.Ok?
    ensures ctx.JwtAuthentication? && HasAdminRole(ctx.jwt) ==> r.value == rows
    ensures ctx.JwtAuthentication? && !HasAdminRole(ctx.jwt) ==>
      Subsequence(r.value, rows)
      && (forall i :: 0 <= i < |r.value| ==> ctx.jwt.sub == Some(r.value[i].userId))
      && (forall l: AuditLog :: ctx.jwt.sub == Some(l.userId) ==> multiset(r.value)[l] == multiset(rows)[l])
  {
    match ctx
    case NoSecurityContext => Ok([])
    case NonJwtAuthentication => Err(NOT_JWT_ERROR)
    case JwtAuthentication(jwt) =>
      if HasAdminRole(jwt) then Ok(rows)
      else if jwt.sub.None? then Ok([])
      else Ok(FindByUserId(rows, jwt.sub.value))
  }

  /** `getAuditLogsForDag`. */
  function GetAuditLogsForDag(rows: seq<AuditLog>, ctx: SecurityContext, dagId: string): (r: Result<seq<AuditLog>, AppException>)
    ensures ctx.NoSecurityContext? ==> r == Ok([])
    ensures ctx.NonJwtAuthentication? ==> r == Err(NOT_JWT_ERROR)
    ensures ctx.JwtAuthentication? ==> r.Ok? && Subsequence(r.value, rows)
    ensures ctx.JwtAuthentication? ==> forall i :: 0 <= i < |r.value| ==> r.value[i].dagId == dagId
    ensures ctx.JwtAuthentication? && HasAdminRole(ctx.jwt) ==>
      forall l: AuditLog :: l.dagId == dagId ==> multiset(r.value)[l] == multiset(rows)[l]
    ensures ctx.JwtAuthentication? && !HasAdminRole(ctx.jwt) ==>
      (forall i :: 0 <= i < |r.value| ==> ctx.jwt.sub == Some(r.value[i].userId))
      && (forall l: AuditLog :: l.dagId == dagId && ctx.jwt.sub == Some(l.userId) ==> multiset(r.value)[l] == multiset(rows)[l])
  {
    match ctx
    case NoSecurityContext => Ok([])
    case NonJwtAuthentication => Err(NOT_JWT_ERROR)
    case JwtAuthentication(jwt) =>
      if HasAdminRole(jwt) then Ok(FindByDagId(rows, dagId))
      else if jwt.sub.None? then Ok([])
      else Ok(FindByUserIdAndDagId(rows, jwt.sub.value, dagId))
  }

  /** `getAuditLogsByOperation`: the operation's rows, then the caller's own for a non-administrator. */
  function GetAuditLogsByOperation(rows: seq<AuditLog>, ctx: SecurityContext, op: Operation): (r: Result<seq<AuditLog>, AppException>)
    ensures ctx.NoSecurityContext? ==> r == Ok([])
    ensures ctx.NonJwtAuthentication? ==> r == Err(NOT_JWT_ERROR)
    ensures ctx.JwtAuthentication? ==> r.Ok? && Subsequence(r.value, rows)
    ensures ctx.JwtAuthentication? ==> forall i :: 0 <= i < |r.value| ==> r.value[i].operation == op
  {
    match ctx
    case NoSecurityContext => Ok([])
    case NonJwtAuthentication => Err(NOT_JWT_ERROR)
    case JwtAuthentication(jwt) =>
      var operationLogs := FindByOperation(rows, op);
      if HasAdminRole(jwt) then Ok(operationLogs)
      else
        FilterIsSubsequence(OwnedBy(jwt.sub), operationLogs);
        SubsequenceTransitive(Filter(OwnedBy(jwt.sub), operationLogs), operationLogs, rows);
        Ok(Filter(OwnedBy(jwt.sub), operationLogs))
  }

  /** `getAuditLogsByOperationAndDagId`: the operation's rows of that DAG, then the caller's own for a non-administrator. */
  function GetAuditLogsByOperationAndDagId(rows: seq<AuditLog>, ctx: SecurityContext, op: Operation, dagId: string)
    : (r: Result<seq<AuditLog>, AppException>)
    ensures ctx.NoSecurityContext? ==> r == Ok([])
    ensures ctx.NonJwtAuthentication? ==> r == Err(NOT_JWT_ERROR)
    ensures ctx.JwtAuthentication? ==> r.Ok?
    ensures ctx.JwtAuthentication? ==> forall i :: 0 <= i < |r.value| ==> r.value[i].operation == op && r.value[i].dagId == dagId
  {
    match ctx
    case NoSecurityContext => Ok([])
    case NonJwtAuthentication => Err(NOT_JWT_ERROR)
    case JwtAuthentication(jwt) =>
      var operationLogs := Filter(ByDag(dagId), FindByOperation(rows, op));
      if HasAdminRole(jwt) then Ok(operationLogs)
      else Ok(Filter(OwnedBy(jwt.sub), operationLogs))
  }

  /** A non-administrator never receives a row written by someone else, from any of the four reads. */
  lemma NonAdminSeesOnlyOwnRows(rows: seq<AuditLog>, jwt: Jwt, dagId: string, op: Operation)
    requires !HasAdminRole(jwt)
    ensures forall l :: l in GetAuditLogs(rows, JwtAuthentication(jwt)).value ==> jwt.sub == Some(l.userId)
    ensures forall l :: l in GetAuditLogsForDag(rows, JwtAuthentication(jwt), dagId).value ==> jwt.sub == Some(l.userId)
    ensures forall l :: l in GetAuditLogsByOperation(rows, JwtAuthentication(jwt), op).value ==> jwt.sub == Some(l.userId)
    ensures forall l :: l in GetAuditLogsByOperationAndDagId(rows, JwtAuthentication(jwt), op, dagId).value ==> jwt.sub == Some(l.userId)
  {
  }

  /**
   * The by-operation read is the general read restricted to one operation,
   * for administrators and everyone else alike, and the by-operation-and-DAG
   * read restricts it further to the DAG.
   */
  lemma {:induction false} ByOperationRefinesGetAuditLogs(rows: seq<AuditLog>, ctx: SecurityContext, op: Operation, dagId: string)
    requires ctx.JwtAuthentication?
    ensures GetAuditLogsByOperation(rows, ctx, op).value == Filter(ByOperation(op), GetAuditLogs(rows, ctx).value)
    ensures GetAuditLogsByOperationAndDagId(rows, ctx, op, dagId).value
         == Filter(ByDag(dagId), GetAuditLogsByOperation(rows, ctx, op).value)
  {
    var jwt := ctx.jwt;
    var owned := OwnedBy(jwt.sub);
    var opLogs := FindByOperation(rows, op);
    if !HasAdminRole(jwt) {
      var both := (l: AuditLog) => jwt.sub == Some(l.userId) && l.operation == op;
      FilterConjunction(both, owned, ByOperation(op), rows);
      FilterConjunction(both, ByOperation(op), owned, rows);
      if jwt.sub.Some? {
        FilterSameSelection(owned, ByUser(jwt.sub.value), rows);
      } else {
        FilterNoneSelected(owned, rows);
        FilterNoneSelected(owned, opLogs);
      }
      var ownDag := (l: AuditLog) => jwt.sub == Some(l.userId) && l.dagId == dagId;
      FilterConjunction(ownDag, owned, ByDag(dagId), opLogs);
      FilterConjunction(ownDag, ByDag(dagId), owned, opLogs);
    }
  }

  /** A row written by `LogOperation` is visible to its author through `getAuditLogs`. */
  lemma LoggedRowVisibleToAuthor(rows: seq<AuditLog>, jwt: Jwt, row: AuditLog)
    requires jwt.sub == Some(row.userId)
    ensures row in GetAuditLogs(rows + [row], JwtAuthentication(jwt)).value
  {
    var all := rows + [row];
    assert all[|rows|] == row;
    if !HasAdminRole(jwt) {
      assert multiset(all)[row] > 0;
    }
  }
}
