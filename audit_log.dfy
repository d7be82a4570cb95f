/** An audit row and the operations that are audited. */
module AuditLogEntity {
  import opened Wrappers

  /** `AuditLogOperation`; the database column holds the enum constant's name. */
  datatype Operation = Pause | Unpause | Delete | Trigger | Clear | UpdateState

  function OperationName(op: Operation): string
  {
    match op
    case Pause => "PAUSE"
    case Unpause => "UNPAUSE"
    case Delete => "DELETE"
    case Trigger => "TRIGGER"
    case Clear => "CLEAR"
    case UpdateState => "UPDATE_STATE"
  }

  /** Each stored name stands for exactly one operation. */
  lemma OperationNameInjective(a: Operation, b: Operation)
    ensures OperationName(a) == OperationName(b) ==> a == b
  {
  }

  /**
   * One row of `audit_logs`. `operationTime` is the server clock reading at
   * creation, as an integer; `id` is the generated key.
   */
  datatype AuditLog = AuditLog(
    id: int,
    userId: string,
    username: string,
    dagId: string,
    dagRunId: Option<string>,
    operation: Operation,
    operationTime: int,
    details: string)
}
