/**
 * The exceptions the server raises, as one datatype, and the message
 * formatting of `AirflowResourceNotFoundException` and
 * `AirflowConflictException`.
 */
module Exceptions {
  import opened Wrappers

  /** The `RuntimeException` subclasses that carry no handler of their own. */
  datatype RuntimeKind =
    | IllegalArgument
    | IllegalState
    | NullPointer
    | NumberFormat
    | DataAccess
    | IndexOutOfBounds
    | ConnectionFailure

  datatype AppException =
    | ResourceNotFound(message: string, cause: Option<AppException>)
    | Conflict(message: string, cause: Option<AppException>)
    | Authentication(message: string, cause: Option<AppException>)
    | WebClientResponse(status: int, body: string)
    | ResponseStatus(status: int, reason: Option<string>)
    | AccessDenied(message: string)
    | Runtime(kind: RuntimeKind, text: Option<string>)
    | Checked(text: Option<string>)

  /** What the database does with one write: it commits, or the driver reports a failure. */
  datatype StorageOutcome = Stored | StorageFailure(message: string)

  /** The exception a failed write surfaces as (a Spring `DataAccessException`). */
  function StorageError(message: string): AppException
  {
    Runtime(DataAccess, Some(message))
  }

  /** The status a class-level `@ResponseStatus` annotation binds the exception to. */
  function BoundStatus(e: AppException): (s: Option<int>)
    ensures s.Some? <==> e.ResourceNotFound? || e.Conflict?
  {
    match e
    case ResourceNotFound(_, _) => Some(404)
    case Conflict(_, _) => Some(409)
    case _ => None
  }

  // AirflowResourceNotFoundException

  /** The message-only constructor. */
  function NotFound(message: string): AppException
  {
    ResourceNotFound(message, None)
  }

  /** The constructor with a cause. */
  function NotFoundWithCause(message: string, cause: AppException): AppException
  {
    ResourceNotFound(message, Some(cause))
  }

  /** `String.format("%s with ID '%s' not found", resourceType, resourceId)`. */
  function NotFoundMessage(resourceType: string, resourceId: string): string
  {
    resourceType + " with ID '" + resourceId + "' not found"
  }

  /** The (resourceType, resourceId) constructor. */
  function NotFoundFor(resourceType: string, resourceId: string): AppException
  {
    ResourceNotFound(NotFoundMessage(resourceType, resourceId), None)
  }

  /** Reads the resource id back out of a not-found message for a known resource type. */
  function NotFoundResourceId(message: string, resourceType: string): Option<string>
  {
    var head := resourceType + " with ID '";
    var tail := "' not found";
    if |message| >= |head| + |tail| && message[..|head|] == head && message[|message| - |tail|..] == tail
    then Some(message[|head|..|message| - |tail|])
    else None
  }

  /** The formatted not-found message determines the resource id. */
  lemma NotFoundMessageRoundTrip(resourceType: string, resourceId: string)
    ensures NotFoundResourceId(NotFoundMessage(resourceType, resourceId), resourceType) == Some(resourceId)
  {
    var head := resourceType + " with ID '";
    var m := NotFoundMessage(resourceType, resourceId);
    assert m == head + resourceId + "' not found";
    assert m[..|head|] == head;
    assert m[|m| - 11..] == "' not found";
    assert m[|head|..|m| - 11] == resourceId;
  }

  /** The constructors keep what they are given and are bound to 404. */
  lemma NotFoundConstructors(message: string, cause: AppException, resourceType: string, resourceId: string)
    ensures NotFound(message).message == message && NotFound(message).cause == None
    ensures NotFoundWithCause(message, cause).message == message && NotFoundWithCause(message, cause).cause == Some(cause)
    ensures NotFoundFor(resourceType, resourceId).message == NotFoundMessage(resourceType, resourceId)
    ensures BoundStatus(NotFound(message)) == BoundStatus(NotFoundFor(resourceType, resourceId)) == Some(404)
  {
  }

  // AirflowConflictException

  function ConflictWithMessage(message: string): AppException
  {
    Conflict(message, None)
  }

  function ConflictWithCause(message: string, cause: AppException): AppException
  {
    Conflict(message, Some(cause))
  }

  /** `String.format("Cannot %s %s with ID '%s' due to a conflict", action, resourceType, resourceId)`. */
  function ConflictMessage(resourceType: string, resourceId: string, action: string): string
  {
    "Cannot " + action + " " + resourceType + " with ID '" + resourceId + "' due to a conflict"
  }

  /** The (resourceType, resourceId, action) constructor. */
  function ConflictFor(resourceType: string, resourceId: string, action: string): AppException
  {
    Conflict(ConflictMessage(resourceType, resourceId, action), None)
  }

  /** Reads the resource id back out of a conflict message for a known action and resource type. */
  function ConflictResourceId(message: string, resourceType: string, action: string): Option<string>
  {
    var head := "Cannot " + action + " " + resourceType + " with ID '";
    var tail := "' due to a conflict";
    if |message| >= |head| + |tail| && message[..|head|] == head && message[|message| - |tail|..] == tail
    then Some(message[|head|..|message| - |tail|])
    else None
  }

  /** The formatted conflict message determines the resource id; the action comes first in the text. */
  lemma ConflictMessageRoundTrip(resourceType: string, resourceId: string, action: string)
    ensures ConflictResourceId(ConflictMessage(resourceType, resourceId, action), resourceType, action) == Some(resourceId)
    ensures ConflictMessage(resourceType, resourceId, action)[7..7 + |action|] == action
  {
    var head := "Cannot " + action + " " + resourceType + " with ID '";
    var m := ConflictMessage(resourceType, resourceId, action);
    assert m == head + resourceId + "' due to a conflict";
    assert m[..|head|] == head;
    assert m[|m| - 19..] == "' due to a conflict";
    assert m[|head|..|m| - 19] == resourceId;
    assert m[7..7 + |action|] == head[7..7 + |action|];
  }

  lemma ConflictConstructors(message: string, cause: AppException, resourceType: string, resourceId: string, action: string)
    ensures ConflictWithMessage(message).message == message && ConflictWithMessage(message).cause == None
    ensures ConflictWithCause(message, cause).message == message && ConflictWithCause(message, cause).cause == Some(cause)
    ensures ConflictFor(resourceType, resourceId, action).message == ConflictMessage(resourceType, resourceId, action)
    ensures BoundStatus(ConflictWithMessage(message)) == BoundStatus(ConflictFor(resourceType, resourceId, action)) == Some(409)
  {
  }
}
