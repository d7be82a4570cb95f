/**
 * `auditLogService.ts`: who the browser thinks the user is, read from the
 * stored login, and the own-rows filter it applies to audit listings for
 * users who are not administrators.
 */
module UiAuditLogService {
  import opened Wrappers
  import opened Seqs
  import opened AuditLogEntity

  const ADMIN_ROLE := "airflow-admin"

  /** The decoded token's `user` object: its subject and its `realm_access.roles`, each possibly missing. */
  datatype StoredUser = StoredUser(sub: Option<string>, roles: Option<seq<string>>)

  /** The `auth` entry of local storage: missing, not JSON, or parsed (with or without a `user`). */
  datatype StoredAuth = NoAuth | Unparsable | Parsed(user: Option<StoredUser>)

  /** `hasAdminRole`: true only for a stored user whose realm roles include `airflow-admin`. */
  function HasAdminRole(auth: StoredAuth): (admin: bool)
    ensures admin <==> auth.Parsed? && auth.user.Some? && auth.user.value.roles.Some?
                       && ADMIN_ROLE in auth.user.value.roles.value
  {
    match auth
    case Parsed(Some(user)) =>
      var roles := if user.roles.Some? then user.roles.value else [];
      ADMIN_ROLE in roles
    case _ => false
  }

  /** `getCurrentUserId`: the stored subject, or the empty string when anything is missing. */
  function CurrentUserId(auth: StoredAuth): (id: string)
    ensures id != "" <==> auth.Parsed? && auth.user.Some? && auth.user.value.sub.Some? && auth.user.value.sub.value != ""
    ensures id != "" ==> id == auth.user.value.sub.value
  {
    match auth
    case Parsed(Some(user)) => if user.sub.Some? then user.sub.value else ""
    case _ => ""
  }

  function OwnedBy(userId: string): AuditLog -> bool
  {
    (log: AuditLog) => log.userId == userId
  }

  /**
   * What `getAuditLogs` and `getAuditLogsForDag` return for the server's
   * rows: everything for an administrator, otherwise only the rows whose
   * `userId` is the current user's id.
   */
  function VisibleLogs(logs: seq<AuditLog>, auth: StoredAuth): (shown: seq<AuditLog>)
    ensures |shown| <= |logs|
    ensures HasAdminRole(auth) ==> shown == logs
    ensures !HasAdminRole(auth) ==> forall x :: x in shown <==> x in logs && x.userId == CurrentUserId(auth)
  {
    if HasAdminRole(auth) then logs else Filter(OwnedBy(CurrentUserId(auth)), logs)
  }

  /** The own-rows filter keeps the server's order. */
  lemma VisibleLogsKeepOrder(logs: seq<AuditLog>, auth: StoredAuth)
    ensures Subsequence(VisibleLogs(logs, auth), logs)
  {
    if HasAdminRole(auth) {
      FilterKeepsAll((x: AuditLog) => true, logs);
      FilterIsSubsequence((x: AuditLog) => true, logs);
    } else {
      FilterIsSubsequence(OwnedBy(CurrentUserId(auth)), logs);
    }
  }

  /** Without a stored login the browser shows only rows carrying an empty user id. */
  lemma AnonymousSeesNoOwnedRows(logs: seq<AuditLog>, auth: StoredAuth)
    requires !auth.Parsed? || auth.user.None?
    ensures forall x :: x in VisibleLogs(logs, auth) ==> x.userId == ""
  {
  }

  /** Filtering twice changes nothing: the client filter is idempotent. */
  lemma VisibleLogsIdempotent(logs: seq<AuditLog>, auth: StoredAuth)
    ensures VisibleLogs(VisibleLogs(logs, auth), auth) == VisibleLogs(logs, auth)
  {
    if !HasAdminRole(auth) {
      var shown := VisibleLogs(logs, auth);
      FilterKeepsAll(OwnedBy(CurrentUserId(auth)), shown);
    }
  }
}
