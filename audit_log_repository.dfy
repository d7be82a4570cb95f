/**
 * The `audit_logs` table behind `AuditLogRepository`: an append-only
 * sequence of rows with generated increasing keys, the inherited `save`
 * that appends, and every derived finder and counter as a selection over
 * the rows in table order.
 */
module AuditLogRepository {
  import opened Wrappers
  import opened Seqs
  import opened Exceptions
  import opened AuditLogEntity
  import opened Sorting

  class AuditLogTable {
    var rows: seq<AuditLog>
    /** The next value of the `id` sequence. */
    var nextId: int

    ghost predicate Valid()
      reads this
    {
      1 <= nextId
      && (forall i :: 0 <= i < |rows| ==> 1 <= rows[i].id < nextId)
      && (forall i, j :: 0 <= i < j < |rows| ==> rows[i].id < rows[j].id)
    }

    constructor ()
      ensures Valid() && rows == []
    {
      rows := [];
      nextId := 1;
    }

    /**
     * `save` of an entity without a key: an INSERT that fills in the
     * generated key and returns the stored row. The entity's own `id`
     * (null in the source) is ignored.
     */
    method Save(entry: AuditLog, storage: StorageOutcome) returns (r: Result<AuditLog, AppException>)
      requires Valid()
      modifies this
      ensures Valid()
      ensures storage.Stored? ==> r == Ok(entry.(id := old(nextId))) && rows == old(rows) + [r.value]
      ensures storage.StorageFailure? ==> r == Err(StorageError(storage.message)) && rows == old(rows)
      ensures old(rows) <= rows
    {
      match storage {
        case Stored =>
          var saved := entry.(id := nextId);
          rows := rows + [saved];
          nextId := nextId + 1;
          r := Ok(saved);
        case StorageFailure(message) =>
          r := Err(StorageError(message));
      }
    }
  }

  // Row selections

  function ByUser(userId: string): AuditLog -> bool { (l: AuditLog) => l.userId == userId }
  function ByUsername(username: string): AuditLog -> bool { (l: AuditLog) => l.username == username }
  function ByDag(dagId: string): AuditLog -> bool { (l: AuditLog) => l.dagId == dagId }
  function ByDagRun(dagRunId: string): AuditLog -> bool { (l: AuditLog) => l.dagRunId == Some(dagRunId) }
  function ByOperation(op: Operation): AuditLog -> bool { (l: AuditLog) => l.operation == op }
  function ByUserAndDag(userId: string, dagId: string): AuditLog -> bool
  {
    (l: AuditLog) => l.userId == userId && l.dagId == dagId
  }
  function ByUserAndOperation(userId: string, op: Operation): AuditLog -> bool
  {
    (l: AuditLog) => l.userId == userId && l.operation == op
  }
  function ByTimeBetween(start: int, end: int): AuditLog -> bool
  {
    (l: AuditLog) => start <= l.operationTime <= end
  }
  function DeletesOf(dagId: string): AuditLog -> bool
  {
    (l: AuditLog) => l.operation == Delete && l.dagId == dagId
  }

  /** The rows selected by `p`, in table order; every matching row is there as often as in the table. */
  function Select(rows: seq<AuditLog>, p: AuditLog -> bool): (r: seq<AuditLog>)
    ensures Subsequence(r, rows)
    ensures forall i :: 0 <= i < |r| ==> p(r[i])
    ensures forall l: AuditLog :: p(l) ==> multiset(r)[l] == multiset(rows)[l]
  {
    FilterIsSubsequence(p, rows);
    FilterMultiset(p, rows);
    Filter(p, rows)
  }

  function FindByUserId(rows: seq<AuditLog>, userId: string): (r: seq<AuditLog>)
    ensures Subsequence(r, rows)
    ensures forall i :: 0 <= i < |r| ==> r[i].userId == userId
    ensures forall l: AuditLog :: l.userId == userId ==> multiset(r)[l] == multiset(rows)[l]
  {
    Select(rows, ByUser(userId))
  }

  function FindByUsername(rows: seq<AuditLog>, username: string): (r: seq<AuditLog>)
    ensures Subsequence(r, rows)
    ensures forall i :: 0 <= i < |r| ==> r[i].username == username
    ensures forall l: AuditLog :: l.username == username ==> multiset(r)[l] == multiset(rows)[l]
  {
    Select(rows, ByUsername(username))
  }

  function FindByDagId(rows: seq<AuditLog>, dagId: string): (r: seq<AuditLog>)
    ensures Subsequence(r, rows)
    ensures forall i :: 0 <= i < |r| ==> r[i].dagId == dagId
    ensures forall l: AuditLog :: l.dagId == dagId ==> multiset(r)[l] == multiset(rows)[l]
  {
    Select(rows, ByDag(dagId))
  }

  function FindByDagRunId(rows: seq<AuditLog>, dagRunId: string): (r: seq<AuditLog>)
    ensures Subsequence(r, rows)
    ensures forall i :: 0 <= i < |r| ==> r[i].dagRunId == Some(dagRunId)
    ensures forall l: AuditLog :: l.dagRunId == Some(dagRunId) ==> multiset(r)[l] == multiset(rows)[l]
  {
    Select(rows, ByDagRun(dagRunId))
  }

  function FindByOperation(rows: seq<AuditLog>, op: Operation): (r: seq<AuditLog>)
    ensures Subsequence(r, rows)
    ensures forall i :: 0 <= i < |r| ==> r[i].operation == op
    ensures forall l: AuditLog :: l.operation == op ==> multiset(r)[l] == multiset(rows)[l]
  {
    Select(rows, ByOperation(op))
  }

  /** `Between` is inclusive at both ends. */
  function FindByOperationTimeBetween(rows: seq<AuditLog>, start: int, end: int): (r: seq<AuditLog>)
    ensures Subsequence(r, rows)
    ensures forall i :: 0 <= i < |r| ==> start <= r[i].operationTime <= end
    ensures forall l: AuditLog :: start <= l.operationTime <= end ==> multiset(r)[l] == multiset(rows)[l]
  {
    Select(rows, ByTimeBetween(start, end))
  }

  function FindByUserIdAndDagId(rows: seq<AuditLog>, userId: string, dagId: string): (r: seq<AuditLog>)
    ensures Subsequence(r, rows)
    ensures forall i :: 0 <= i < |r| ==> r[i].userId == userId && r[i].dagId == dagId
    ensures forall l: AuditLog :: l.userId == userId && l.dagId == dagId ==> multiset(r)[l] == multiset(rows)[l]
  {
    Select(rows, ByUserAndDag(userId, dagId))
  }

  /** The combined finder is the intersection of the two single-field finders, in table order. */
  lemma UserAndDagIsIntersection(rows: seq<AuditLog>, userId: string, dagId: string)
    ensures FindByUserIdAndDagId(rows, userId, dagId) == Filter(ByDag(dagId), FindByUserId(rows, userId))
    ensures FindByUserIdAndDagId(rows, userId, dagId) == Filter(ByUser(userId), FindByDagId(rows, dagId))
  {
    FilterConjunction(ByUserAndDag(userId, dagId), ByDag(dagId), ByUser(userId), rows);
    FilterConjunction(ByUserAndDag(userId, dagId), ByUser(userId), ByDag(dagId), rows);
  }

  /** `countByUserIdAndOperation`: the number of rows of that user with that operation. */
  function CountByUserIdAndOperation(rows: seq<AuditLog>, userId: string, op: Operation): (n: nat)
    ensures n == |set i | 0 <= i < |rows| && rows[i].userId == userId && rows[i].operation == op|
    ensures n == |Filter(ByOperation(op), FindByUserId(rows, userId))|
    ensures n == |Filter(ByUser(userId), FindByOperation(rows, op))|
    ensures n <= |FindByUserId(rows, userId)| && n <= |FindByOperation(rows, op)|
  {
    FilterConjunction(ByUserAndOperation(userId, op), ByOperation(op), ByUser(userId), rows);
    FilterConjunction(ByUserAndOperation(userId, op), ByUser(userId), ByOperation(op), rows);
    var n := Count(ByUserAndOperation(userId, op), rows);
    assert Positions(ByUserAndOperation(userId, op), rows)
        == set i | 0 <= i < |rows| && rows[i].userId == userId && rows[i].operation == op;
    n
  }

  function CountByOperation(rows: seq<AuditLog>, op: Operation): (n: nat)
    ensures n == |FindByOperation(rows, op)|
    ensures n == |set i | 0 <= i < |rows| && rows[i].operation == op|
  {
    var n := Count(ByOperation(op), rows);
    assert Positions(ByOperation(op), rows) == set i | 0 <= i < |rows| && rows[i].operation == op;
    n
  }

  /** Saving a row raises exactly the counters that match it, by one. */
  lemma CountsAfterSave(rows: seq<AuditLog>, saved: AuditLog, userId: string, op: Operation)
    ensures CountByOperation(rows + [saved], op) == CountByOperation(rows, op) + (if saved.operation == op then 1 else 0)
    ensures CountByUserIdAndOperation(rows + [saved], userId, op)
      == CountByUserIdAndOperation(rows, userId, op) + (if saved.userId == userId && saved.operation == op then 1 else 0)
  {
    CountStep(ByOperation(op), rows, saved);
    CountStep(ByUserAndOperation(userId, op), rows, saved);
  }

  /** The `@Query` for a DAG's deletions: `DELETE` rows of that DAG, newest first. */
  function FindDeleteOperationsForDag(rows: seq<AuditLog>, dagId: string): (r: seq<AuditLog>)
    ensures NewestFirst(r)
    ensures forall i :: 0 <= i < |r| ==> r[i].operation == Delete && r[i].dagId == dagId
    ensures forall l: AuditLog :: l.operation == Delete && l.dagId == dagId ==> multiset(r)[l] == multiset(rows)[l]
    ensures multiset(r) == multiset(Filter(DeletesOf(dagId), rows))
  {
    var matching := Select(rows, DeletesOf(dagId));
    var r := SortNewestFirst(matching);
    assert forall i :: 0 <= i < |r| ==> r[i] in multiset(matching);
    r
  }
}
