/**
 * The observable effects of the DAG and DAG-run services, in the order
 * they happen: audit rows written and calls issued to Airflow. The
 * ordering rules the services keep are the invariant `WellOrdered`.
 */
module Effects {
  import opened AuditLogEntity

  datatype Call =
    | ListDags | GetDag | PatchDag | DeleteDag | GetDagTasks | GetDagDetails
    | ListDagRuns | PostDagRun | GetDagRun | DeleteDagRun | PatchDagRun | ClearDagRun
    | GetDatasetEvents | SetDagRunNote

  /** An audit row committed, or a call to Airflow and whether it succeeded. */
  datatype Event = Audit(op: Operation) | Upstream(call: Call, succeeded: bool)

  predicate IsDeleteCall(c: Call)
  {
    c == DeleteDag || c == DeleteDagRun
  }

  /** The operation recorded after a successful call of this kind. */
  predicate AuditedAfter(c: Call, op: Operation)
  {
    match c
    case PatchDag => op == Pause || op == Unpause || op == UpdateState
    case PostDagRun => op == Trigger
    case PatchDagRun => op == UpdateState
    case ClearDagRun => op == Clear
    case _ => false
  }

  /** The rule the event at index `i` of `t` obeys. */
  ghost predicate EventPlaced(t: seq<Event>, i: int)
    requires 0 <= i < |t|
  {
    match t[i]
    case Upstream(c, _) =>
      IsDeleteCall(c) ==> i > 0 && t[i - 1] == Audit(Delete)
    case Audit(op) =>
      if op == Delete then i + 1 < |t| && t[i + 1].Upstream? && IsDeleteCall(t[i + 1].call)
      else i > 0 && t[i - 1].Upstream? && t[i - 1].succeeded && AuditedAfter(t[i - 1].call, op)
  }

  /**
   * Every delete call is immediately preceded by its `DELETE` audit row and
   * every `DELETE` row is immediately followed by the delete call; every
   * other audit row immediately follows a successful call of its kind.
   */
  ghost predicate WellOrdered(t: seq<Event>)
  {
    forall i :: 0 <= i < |t| ==> EventPlaced(t, i)
  }

  /** The operations of the audit events, in order. */
  function AuditOps(t: seq<Event>): seq<Operation>
  {
    if t == [] then []
    else AuditOps(t[..|t| - 1]) + (if t[|t| - 1].Audit? then [t[|t| - 1].op] else [])
  }

  lemma {:induction false} AuditOpsAppend(a: seq<Event>, b: seq<Event>)
    ensures AuditOps(a + b) == AuditOps(a) + AuditOps(b)
    decreases |b|
  {
    if b == [] {
      assert a + b == a;
    } else {
      AuditOpsAppend(a, b[..|b| - 1]);
      assert (a + b)[..|a + b| - 1] == a + b[..|b| - 1];
    }
  }

  /** The operations of the stored audit rows, in order. */
  function RowOps(rows: seq<AuditLog>): (ops: seq<Operation>)
    ensures |ops| == |rows| && forall i :: 0 <= i < |rows| ==> ops[i] == rows[i].operation
  {
    seq(|rows|, i requires 0 <= i < |rows| => rows[i].operation)
  }

  /** Every audit event is a stored row and every stored row an audit event, in the same order. */
  ghost predicate Recorded(rows: seq<AuditLog>, events: seq<Event>)
  {
    AuditOps(events) == RowOps(rows)
  }

  lemma RecordAppend(rows: seq<AuditLog>, events: seq<Event>, added: seq<AuditLog>, block: seq<Event>)
    requires Recorded(rows, events)
    requires AuditOps(events + block) == AuditOps(events) + RowOps(added)
    ensures Recorded(rows + added, events + block)
  {
    assert RowOps(rows + added) == RowOps(rows) + RowOps(added);
  }

  /** The events of a read or of an unaudited write: one call. */
  function CallBlock(c: Call, succeeded: bool): seq<Event>
  {
    [Upstream(c, succeeded)]
  }

  /** An audited write other than a delete: the call, then the audit row if the call succeeded and the row was stored. */
  function MutationBlock(c: Call, succeeded: bool, op: Operation, audited: bool): seq<Event>
  {
    [Upstream(c, succeeded)] + (if succeeded && audited then [Audit(op)] else [])
  }

  /** A delete: the audit row, then the call; nothing at all when the row could not be stored. */
  function DeleteBlock(c: Call, succeeded: bool, audited: bool): seq<Event>
  {
    if audited then [Audit(Delete), Upstream(c, succeeded)] else []
  }

  lemma PlacedInPrefix(a: seq<Event>, b: seq<Event>, i: int)
    requires WellOrdered(a) && 0 <= i < |a|
    ensures EventPlaced(a + b, i)
  {
    assert EventPlaced(a, i);
    assert (a + b)[i] == a[i];
    if i > 0 { assert (a + b)[i - 1] == a[i - 1]; }
    if i + 1 < |a| { assert (a + b)[i + 1] == a[i + 1]; }
  }

  lemma CallBlockKeepsOrder(a: seq<Event>, c: Call, succeeded: bool)
    requires WellOrdered(a) && !IsDeleteCall(c)
    ensures WellOrdered(a + CallBlock(c, succeeded))
    ensures AuditOps(a + CallBlock(c, succeeded)) == AuditOps(a)
  {
    var t := a + CallBlock(c, succeeded);
    forall i | 0 <= i < |t| ensures EventPlaced(t, i) {
      if i < |a| { PlacedInPrefix(a, CallBlock(c, succeeded), i); }
    }
    AuditOpsAppend(a, CallBlock(c, succeeded));
  }

  lemma MutationBlockKeepsOrder(a: seq<Event>, c: Call, succeeded: bool, op: Operation, audited: bool)
    requires WellOrdered(a) && !IsDeleteCall(c) && AuditedAfter(c, op)
    ensures WellOrdered(a + MutationBlock(c, succeeded, op, audited))
    ensures AuditOps(a + MutationBlock(c, succeeded, op, audited)) == AuditOps(a) + (if succeeded && audited then [op] else [])
  {
    var b := MutationBlock(c, succeeded, op, audited);
    var t := a + b;
    forall i | 0 <= i < |t| ensures EventPlaced(t, i) {
      if i < |a| { PlacedInPrefix(a, b, i); }
      else if i == |a| + 1 { assert t[i - 1] == Upstream(c, succeeded); }
    }
    AuditOpsAppend(a, b);
    assert AuditOps(b) == if succeeded && audited then [op] else [] by {
      if succeeded && audited {
        assert b[..1] == [Upstream(c, succeeded)];
        assert AuditOps(b[..1]) == AuditOps([]) + [];
      }
    }
  }

  lemma DeleteBlockKeepsOrder(a: seq<Event>, c: Call, succeeded: bool, audited: bool)
    requires WellOrdered(a) && IsDeleteCall(c)
    ensures WellOrdered(a + DeleteBlock(c, succeeded, audited))
    ensures AuditOps(a + DeleteBlock(c, succeeded, audited)) == AuditOps(a) + (if audited then [Delete] else [])
  {
    var b := DeleteBlock(c, succeeded, audited);
    var t := a + b;
    forall i | 0 <= i < |t| ensures EventPlaced(t, i) {
      if i < |a| { PlacedInPrefix(a, b, i); }
    }
    AuditOpsAppend(a, b);
    if audited {
      assert b[..1] == [Audit(Delete)];
      assert AuditOps(b[..1]) == [Delete] by {
        assert b[..1][..0] == [];
      }
      assert AuditOps(b) == AuditOps(b[..1]) + [];
    } else {
      assert a + b == a;
    }
  }

  /** A read or an unaudited write keeps the history well ordered and writes no row. */
  lemma CallRecorded(rows: seq<AuditLog>, events: seq<Event>, c: Call, succeeded: bool)
    requires WellOrdered(events) && Recorded(rows, events) && !IsDeleteCall(c)
    ensures WellOrdered(events + CallBlock(c, succeeded)) && Recorded(rows, events + CallBlock(c, succeeded))
  {
    CallBlockKeepsOrder(events, c, succeeded);
  }

  /** An audited write other than a delete keeps the history well ordered, with one row exactly when it is audited. */
  lemma MutationRecorded(rows: seq<AuditLog>, events: seq<Event>, c: Call, succeeded: bool, op: Operation,
                         audited: bool, added: seq<AuditLog>)
    requires WellOrdered(events) && Recorded(rows, events) && !IsDeleteCall(c) && AuditedAfter(c, op)
    requires RowOps(added) == if succeeded && audited then [op] else []
    ensures WellOrdered(events + MutationBlock(c, succeeded, op, audited))
    ensures Recorded(rows + added, events + MutationBlock(c, succeeded, op, audited))
  {
    MutationBlockKeepsOrder(events, c, succeeded, op, audited);
    RecordAppend(rows, events, added, MutationBlock(c, succeeded, op, audited));
  }

  /** A delete keeps the history well ordered, with one row exactly when it is audited. */
  lemma DeleteRecorded(rows: seq<AuditLog>, events: seq<Event>, c: Call, succeeded: bool, audited: bool, added: seq<AuditLog>)
    requires WellOrdered(events) && Recorded(rows, events) && IsDeleteCall(c)
    requires RowOps(added) == if audited then [Delete] else []
    ensures WellOrdered(events + DeleteBlock(c, succeeded, audited))
    ensures Recorded(rows + added, events + DeleteBlock(c, succeeded, audited))
  {
    DeleteBlockKeepsOrder(events, c, succeeded, audited);
    RecordAppend(rows, events, added, DeleteBlock(c, succeeded, audited));
  }

  /** In a well-ordered history a delete call is never issued without its audit row right before it. */
  lemma DeleteAlwaysAudited(t: seq<Event>, i: int)
    requires WellOrdered(t) && 0 <= i < |t| && t[i].Upstream? && IsDeleteCall(t[i].call)
    ensures i > 0 && t[i - 1] == Audit(Delete)
  {
    assert EventPlaced(t, i);
  }

  /** In a well-ordered history an audit row of a write other than a delete follows a call that succeeded. */
  lemma NoAuditWithoutSuccess(t: seq<Event>, i: int)
    requires WellOrdered(t) && 0 <= i < |t| && t[i].Audit? && t[i].op != Delete
    ensures i > 0 && t[i - 1].Upstream? && t[i - 1].succeeded && AuditedAfter(t[i - 1].call, t[i].op)
  {
    assert EventPlaced(t, i);
  }

  /** The effects log shared by the services. */
  class EffectLog {
    var events: seq<Event>

    ghost predicate Valid()
      reads this
    {
      WellOrdered(events)
    }

    constructor ()
      ensures Valid() && events == []
    {
      events := [];
    }
  }
}
