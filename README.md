# Airflow controller: a Dafny model

This project models the behaviour of a Spring WebFlux service that sits in front of an Apache Airflow REST API and a Keycloak realm, together with the React user interface that talks to it. Every change the service makes to Airflow is recorded in an audit-log table. Users from Keycloak are copied into a local user table by a synchronisation job. Authentication and Airflow errors are turned into uniform error bodies.

## What is modelled

**Server side**
- The audit-log service and its repository. The table is a class whose `Save` appends a row with a fresh id. The derived finders and counters are selections over that table.
- The DAG and DAG-run services, as classes that own the audit table and an effect trace. The trace is a sequence of upstream calls and audit writes, so the order "audit after success" (update, trigger, clear, state change) and "audit before the call" (delete) is a checked invariant of the trace.
- The DAG controller's filter and page arithmetic, and its delete guard. The run controller's query map.
- User synchronisation: `mapToUser`, the id-keyed user table, the save-or-skip step with its two counters, and the whole sequential run. The write of a new user is a parameter: the repository `save` the code calls, or the insert it evidently intends (see Findings). Every property of the run is proved for both, and the code's own write is shown to store no new user.
- The JWT role converter, the Keycloak token client (form bodies, error-body parsing, conversion of the token reply), the redacting `toString` of the token reply, `PageResponse.of`, the coupled date setters of `DagRunCreate`, and the two exception classes that format messages.
- The global exception handler, as one function from an exception kind to an HTTP status and an error body.

**User interface**
- Filtering, counting and colouring of DAG runs, and the defaults the run-creation form fills in.
- The audit-log pages: the newest-first sort, filters, dropdown options, paging and page-reset handlers.
- The DAG list: request parameters, total pages, page reset, status chip.
- The schedule-interval text of the DAG details page, and its pause toggle.
- The client-side admin check and own-row filter.
- The error-message priority chain, the run-service payloads, the status chip, task-state colours and the log viewer for task instances.

**How effects are represented**
- Every upstream HTTP reply is a parameter of type `Reply<T>`: success, an HTTP error with a status and a body, or a transport error.
- Every storage write takes a `StorageOutcome` parameter: stored, or failed with a message.
- Clock readings are integer parameters.
- UI components are classes whose fields are the component's state. Each handler is a method that states the component's whole new state.

**Integer widths**
- Java `int` arithmetic is written out where it matters: the page offset in `DagController.getDags` wraps at 32 bits, and `GetDags` computes the page as written (see Findings).
- `(int) Math.ceil(...)` saturates at the `int` range.
- `Long.parseLong` rejects text outside 64 bits.

**Where the code and its design notes disagree, the model follows the code**
- The JWT converter uses the `realm_access.roles` list *instead of* the top-level `roles` claim. It does not take their union.
- Every `WebClientResponseException` reaching the global handler becomes a 401, whatever the upstream status.
- The run delete, update and clear operations map only an upstream 404 to a not-found error. A 409 there is handled as a `WebClientResponseException`.
- One failed write aborts the whole user synchronisation. As written, the write of every new user fails (see Findings), so a run that meets a new user ends with an error.

## Model

| member | source | states |
|---|---|---|
| Exceptions.BoundStatus | spring-airflow-controller-main/src/main/java/com/yigit/airflow_spring_rest_controller/exception/AirflowResourceNotFoundException.java:9 | only the not-found and conflict exceptions carry a bound HTTP status (`@ResponseStatus`) |
| Exceptions.NotFoundMessageRoundTrip | spring-airflow-controller-main/src/main/java/com/yigit/airflow_spring_rest_controller/exception/AirflowResourceNotFoundException.java:20-22 | the formatted "<type> with ID '<id>' not found" message gives back the resource id |
| Exceptions.NotFoundConstructors | spring-airflow-controller-main/src/main/java/com/yigit/airflow_spring_rest_controller/exception/AirflowResourceNotFoundException.java:12-22 | each of the three constructors keeps the message (and cause) it is given, or the formatted one, and all of them map to 404 |
| Exceptions.ConflictMessageRoundTrip | spring-airflow-controller-main/src/main/java/com/yigit/airflow_spring_rest_controller/exception/AirflowConflictException.java:20-22 | the formatted "Cannot <action> <type> with ID '<id>' due to a conflict" message gives back the resource id and starts with the action |
| Exceptions.ConflictConstructors | spring-airflow-controller-main/src/main/java/com/yigit/airflow_spring_rest_controller/exception/AirflowConflictException.java:12-22 | each of the three constructors keeps its message and cause, or the formatted one, and all of them map to 409 |
| JwtAuthConverter.DirectRoles | spring-airflow-controller-main/src/main/java/com/yigit/airflow_spring_rest_controller/config/JwtAuthConverter.java:72-73 | an absent top-level `roles` claim gives no roles; a list gives that list; a single string gives a one-element list |
| JwtAuthConverter.ExtractAuthorities | spring-airflow-controller-main/src/main/java/com/yigit/airflow_spring_rest_controller/config/JwtAuthConverter.java:45-55 | one authority per extracted role, in order, each the role prefixed with `ROLE_` |
| JwtAuthConverter.AuthoritiesRoundTrip | spring-airflow-controller-main/src/main/java/com/yigit/airflow_spring_rest_controller/config/JwtAuthConverter.java:52-54 | stripping `ROLE_` from each authority gives back the role list unchanged, so unknown roles pass through unfiltered |
| JwtAuthConverter.RealmRolesTakePriority | spring-airflow-controller-main/src/main/java/com/yigit/airflow_spring_rest_controller/config/JwtAuthConverter.java:63-66 | with a `realm_access.roles` list, exactly that list is used; a top-level role missing from it is not granted |
| JwtAuthConverter.FallbackToDirectRoles | spring-airflow-controller-main/src/main/java/com/yigit/airflow_spring_rest_controller/config/JwtAuthConverter.java:60-73 | an absent or malformed `realm_access`, or one without a roles list, falls back to the top-level `roles` claim |
| JwtAuthConverter.NoClaimsNoAuthorities | spring-airflow-controller-main/src/main/java/com/yigit/airflow_spring_rest_controller/config/JwtAuthConverter.java:48-50 | with neither claim there are no authorities |
| GlobalExceptionHandler.WebClientResponseBody | spring-airflow-controller-main/src/main/java/com/yigit/airflow_spring_rest_controller/exception/GlobalExceptionHandler.java:49-72 | a WebClient error is always a 401 "Authentication Failed"; the detail is the invalid-grant text iff the body names `invalid_grant`, the unauthorized-client text iff it names only `unauthorized_client`, and a fixed text otherwise |
| GlobalExceptionHandler.RuntimeBody | spring-airflow-controller-main/src/main/java/com/yigit/airflow_spring_rest_controller/exception/GlobalExceptionHandler.java:120-156 | a runtime error is a 401 exactly when its message is an authentication failure, otherwise a 500 "Server Error"; the connection text appears iff a non-auth message names "No connection to"; the detail never echoes the message |
| GlobalExceptionHandler.Handle | spring-airflow-controller-main/src/main/java/com/yigit/airflow_spring_rest_controller/exception/GlobalExceptionHandler.java:26-170 | intended: the HTTP status of the reply always equals the status written in its body |
| GlobalExceptionHandler.HandleAsWritten | spring-airflow-controller-main/src/main/java/com/yigit/airflow_spring_rest_controller/exception/GlobalExceptionHandler.java:26-170 | as written: the same error body as the handler table gives; the HTTP status is that of the body, except for a `ResponseStatusException`, which is sent with the default status 200 |
| GlobalExceptionHandler.HandlerTable | spring-airflow-controller-main/src/main/java/com/yigit/airflow_spring_rest_controller/exception/GlobalExceptionHandler.java:26-170 | the status, error name and detail of every handler: 404 and 409 carry the exception message, WebClient errors answer 401, access denied 403, authentication 401, runtime 401 or 500, any other exception 500; a bound `@ResponseStatus` status is kept |
| GlobalExceptionHandler.DetailsDoNotLeak | spring-airflow-controller-main/src/main/java/com/yigit/airflow_spring_rest_controller/exception/GlobalExceptionHandler.java:49-170 | apart from not-found, conflict and authentication errors, the detail is one of the handler's fixed texts |
| GlobalExceptionHandler.AsWrittenAgreesElsewhere | spring-airflow-controller-main/src/main/java/com/yigit/airflow_spring_rest_controller/exception/GlobalExceptionHandler.java:26-170 | the handler as written and the corrected one differ only on `ResponseStatusException` |
| GlobalExceptionHandler.ResponseStatusAnsweredWithOk | spring-airflow-controller-main/src/main/java/com/yigit/airflow_spring_rest_controller/exception/GlobalExceptionHandler.java:74-83 | as written, a `ResponseStatusException` with status 400 is answered with HTTP 200 while its body says 400 |
| AuditLogEntity.OperationNameInjective | spring-airflow-controller-main/src/main/java/com/yigit/airflow_spring_rest_controller/entity/AuditLog.java:39 | distinct operations have distinct names, so filtering by name is filtering by operation |
| AuditLogRepository.AuditLogTable.constructor | spring-airflow-controller-main/src/main/java/com/yigit/airflow_spring_rest_controller/repository/AuditLogRepository.java:17 | a new table is empty |
| AuditLogRepository.AuditLogTable.Save | spring-airflow-controller-main/src/main/java/com/yigit/airflow_spring_rest_controller/repository/AuditLogRepository.java:17 | a stored save appends the entry with the next id and returns it; a failed save changes nothing and returns the storage error; rows are only ever appended |
| AuditLogRepository.Select | spring-airflow-controller-main/src/main/java/com/yigit/airflow_spring_rest_controller/repository/AuditLogRepository.java:20-91 | a derived query keeps the matching rows in table order and each matching row as often as it occurs |
| AuditLogRepository.FindByUserId | spring-airflow-controller-main/src/main/java/com/yigit/airflow_spring_rest_controller/repository/AuditLogRepository.java:24 | exactly the rows of that user, in table order |
| AuditLogRepository.FindByUsername | spring-airflow-controller-main/src/main/java/com/yigit/airflow_spring_rest_controller/repository/AuditLogRepository.java:31 | exactly the rows with that username, in table order |
| AuditLogRepository.FindByDagId | spring-airflow-controller-main/src/main/java/com/yigit/airflow_spring_rest_controller/repository/AuditLogRepository.java:38 | exactly the rows of that DAG, in table order |
| AuditLogRepository.FindByDagRunId | spring-airflow-controller-main/src/main/java/com/yigit/airflow_spring_rest_controller/repository/AuditLogRepository.java:45 | exactly the rows of that DAG run, in table order |
| AuditLogRepository.FindByOperation | spring-airflow-controller-main/src/main/java/com/yigit/airflow_spring_rest_controller/repository/AuditLogRepository.java:52 | exactly the rows with that operation, in table order |
| AuditLogRepository.FindByOperationTimeBetween | spring-airflow-controller-main/src/main/java/com/yigit/airflow_spring_rest_controller/repository/AuditLogRepository.java:60 | exactly the rows with start ≤ time ≤ end, both bounds included |
| AuditLogRepository.FindByUserIdAndDagId | spring-airflow-controller-main/src/main/java/com/yigit/airflow_spring_rest_controller/repository/AuditLogRepository.java:68 | exactly the rows matching both the user and the DAG |
| AuditLogRepository.UserAndDagIsIntersection | spring-airflow-controller-main/src/main/java/com/yigit/airflow_spring_rest_controller/repository/AuditLogRepository.java:62-68 | the user-and-DAG query is the DAG filter of the user query, and also the user filter of the DAG query |
| AuditLogRepository.CountByUserIdAndOperation | spring-airflow-controller-main/src/main/java/com/yigit/airflow_spring_rest_controller/repository/AuditLogRepository.java:76 | the count is exactly the number of rows with that user and that operation; it equals the size of the operation filter of the user query, and of the user filter of the operation query, so it is bounded by both |
| AuditLogRepository.CountByOperation | spring-airflow-controller-main/src/main/java/com/yigit/airflow_spring_rest_controller/repository/AuditLogRepository.java:91 | the count is exactly the number of rows with that operation, the size of the by-operation result |
| AuditLogRepository.CountsAfterSave | spring-airflow-controller-main/src/main/java/com/yigit/airflow_spring_rest_controller/repository/AuditLogRepository.java:76-91 | saving one row raises each count by one exactly when the row matches it |
| AuditLogRepository.FindDeleteOperationsForDag | spring-airflow-controller-main/src/main/java/com/yigit/airflow_spring_rest_controller/repository/AuditLogRepository.java:83-84 | exactly the DELETE rows of that DAG, as a multiset, sorted newest first |
| AuditLogService.AuditRow | spring-airflow-controller-main/src/main/java/com/yigit/airflow_spring_rest_controller/service/AuditLogService.java:68-101 | a null or blank DAG id fails first, then a null operation, then a missing or blank `sub`; otherwise the row carries `sub`, the preferred username or "unknown", the DAG, run, operation, details and the current time |
| AuditLogService.AuditError | spring-airflow-controller-main/src/main/java/com/yigit/airflow_spring_rest_controller/service/AuditLogService.java:68-101 | logging fails exactly when the row is rejected or the write fails, and then with that error |
| AuditLogService.LogOperation | spring-airflow-controller-main/src/main/java/com/yigit/airflow_spring_rest_controller/service/AuditLogService.java:68-101 | a rejected row leaves the table untouched; a failed write adds nothing; a stored write appends exactly that row with the next id |
| AuditLogService.LogDagOperation | spring-airflow-controller-main/src/main/java/com/yigit/airflow_spring_rest_controller/service/AuditLogService.java:43-57 | the three-argument form records no run id and otherwise behaves as the four-argument form |
| AuditLogService.GetAuditLogs | spring-airflow-controller-main/src/main/java/com/yigit/airflow_spring_rest_controller/service/AuditLogService.java:110-124 | no security context gives no rows; a non-JWT login is an error; an admin sees every row; anyone else sees exactly their own rows, in order |
| AuditLogService.GetAuditLogsForDag | spring-airflow-controller-main/src/main/java/com/yigit/airflow_spring_rest_controller/service/AuditLogService.java:132-144 | only rows of that DAG: all of them for an admin, only the caller's for anyone else |
| AuditLogService.GetAuditLogsByOperation | spring-airflow-controller-main/src/main/java/com/yigit/airflow_spring_rest_controller/service/AuditLogService.java:214-230 | only rows with that operation, in table order |
| AuditLogService.GetAuditLogsByOperationAndDagId | spring-airflow-controller-main/src/main/java/com/yigit/airflow_spring_rest_controller/service/AuditLogService.java:239-258 | only rows with that operation and that DAG |
| AuditLogService.NonAdminSeesOnlyOwnRows | spring-airflow-controller-main/src/main/java/com/yigit/airflow_spring_rest_controller/service/AuditLogService.java:152-165 | a caller without the admin role sees only their own rows through every query |
| AuditLogService.ByOperationRefinesGetAuditLogs | spring-airflow-controller-main/src/main/java/com/yigit/airflow_spring_rest_controller/service/AuditLogService.java:214-258 | the by-operation query is the operation filter of the visible rows, and the by-DAG form is a further DAG filter of it |
| AuditLogService.LoggedRowVisibleToAuthor | spring-airflow-controller-main/src/main/java/com/yigit/airflow_spring_rest_controller/service/AuditLogService.java:110-124 | a row just written by a user is visible to that user |
| Effects.AuditOpsAppend | spring-airflow-controller-main/src/main/java/com/yigit/airflow_spring_rest_controller/service/DagService.java:53-102 | the audit writes of two trace segments are those of each, in order |
| Effects.RowOps | spring-airflow-controller-main/src/main/java/com/yigit/airflow_spring_rest_controller/service/AuditLogService.java:186-206 | the operations of a row sequence, one per row |
| Effects.RecordAppend | spring-airflow-controller-main/src/main/java/com/yigit/airflow_spring_rest_controller/service/AuditLogService.java:186-206 | appending rows and the matching audit events keeps the table and the trace in step |
| Effects.CallBlockKeepsOrder | spring-airflow-controller-main/src/main/java/com/yigit/airflow_spring_rest_controller/service/DagService.java:42-51 | a read call keeps the trace well ordered and writes no audit row |
| Effects.MutationBlockKeepsOrder | spring-airflow-controller-main/src/main/java/com/yigit/airflow_spring_rest_controller/service/DagService.java:65-77 | an audited-after call keeps the trace well ordered and writes the row only after success |
| Effects.DeleteBlockKeepsOrder | spring-airflow-controller-main/src/main/java/com/yigit/airflow_spring_rest_controller/service/DagService.java:80-102 | a delete keeps the trace well ordered, with its DELETE row before the call |
| Effects.CallRecorded | spring-airflow-controller-main/src/main/java/com/yigit/airflow_spring_rest_controller/service/DagService.java:104-124 | after a read, the table and the trace are still in step |
| Effects.MutationRecorded | spring-airflow-controller-main/src/main/java/com/yigit/airflow_spring_rest_controller/service/DagRunService.java:123-157 | after an audited-after mutation, the table and the trace are still in step |
| Effects.DeleteRecorded | spring-airflow-controller-main/src/main/java/com/yigit/airflow_spring_rest_controller/service/DagRunService.java:101-121 | after a delete, the table and the trace are still in step |
| Effects.DeleteAlwaysAudited | spring-airflow-controller-main/src/main/java/com/yigit/airflow_spring_rest_controller/service/DagService.java:83-87 | in every well-ordered trace, each upstream DELETE is immediately preceded by its DELETE audit write |
| Effects.NoAuditWithoutSuccess | spring-airflow-controller-main/src/main/java/com/yigit/airflow_spring_rest_controller/service/DagRunService.java:81-85 | in every well-ordered trace, each non-delete audit write directly follows a successful upstream call of the matching kind |
| Effects.EffectLog.constructor | spring-airflow-controller-main/src/main/java/com/yigit/airflow_spring_rest_controller/service/DagService.java:53-102 | a new trace is empty and well ordered |
| Upstream.ReplyError | spring-airflow-controller-main/src/main/java/com/yigit/airflow_spring_rest_controller/service/DagService.java:65-72 | an upstream 404 or 409 becomes the caller's not-found or conflict error when one is given, any other status a WebClient error, and a failed connection a connection error |
| Upstream.Outcome | spring-airflow-controller-main/src/main/java/com/yigit/airflow_spring_rest_controller/service/DagService.java:42-51 | a call succeeds exactly when the upstream reply is a success, and then with its value |
| DagService.UpdateOperation | spring-airflow-controller-main/src/main/java/com/yigit/airflow_spring_rest_controller/service/DagService.java:57-59 | `isPaused` true is PAUSE, false is UNPAUSE, null is UPDATE_STATE, each in both directions |
| DagService.UpdateDetails | spring-airflow-controller-main/src/main/java/com/yigit/airflow_spring_rest_controller/service/DagService.java:54-55 | the details text is "Updated DAG: paused", "…unpaused" or "…updated" in the same three cases |
| DagService.UpdateDetailsMatchOperation | spring-airflow-controller-main/src/main/java/com/yigit/airflow_spring_rest_controller/service/DagService.java:54-59 | two updates have the same details text iff they have the same operation |
| DagService.ReadDagOutcome | spring-airflow-controller-main/src/main/java/com/yigit/airflow_spring_rest_controller/service/DagService.java:42-51 | a read succeeds iff upstream does; a 404 is "DAG not found" for that id; any other status stays a WebClient error |
| DagService.ListDagsOutcome | spring-airflow-controller-main/src/main/java/com/yigit/airflow_spring_rest_controller/service/DagService.java:35-40 | listing succeeds iff upstream does, and errors pass through unchanged |
| DagService.UpdateDagOutcome | spring-airflow-controller-main/src/main/java/com/yigit/airflow_spring_rest_controller/service/DagService.java:53-78 | an update succeeds iff upstream succeeds and the audit write succeeds; 404 and 409 become not-found and conflict errors |
| DagService.DeleteDagOutcome | spring-airflow-controller-main/src/main/java/com/yigit/airflow_spring_rest_controller/service/DagService.java:80-102 | a delete succeeds iff the audit write and the upstream call both succeed; a failed audit write is the error; a 409 is "Cannot delete DAG with running instances" |
| DagService.DagService.constructor | spring-airflow-controller-main/src/main/java/com/yigit/airflow_spring_rest_controller/service/DagService.java:53-102 | a new service starts with its table and trace in step |
| DagService.DagService.Read | spring-airflow-controller-main/src/main/java/com/yigit/airflow_spring_rest_controller/service/DagService.java:42-51 | a read records one upstream call and no audit row |
| DagService.DagService.GetDags | spring-airflow-controller-main/src/main/java/com/yigit/airflow_spring_rest_controller/service/DagService.java:35-40 | listing records one upstream call and returns the listing outcome |
| DagService.DagService.GetDag | spring-airflow-controller-main/src/main/java/com/yigit/airflow_spring_rest_controller/service/DagService.java:42-51 | one upstream call, the 404 mapping, and no audit row |
| DagService.DagService.GetDagTasks | spring-airflow-controller-main/src/main/java/com/yigit/airflow_spring_rest_controller/service/DagService.java:104-113 | one upstream call, the 404 mapping, and no audit row |
| DagService.DagService.GetDagDetails | spring-airflow-controller-main/src/main/java/com/yigit/airflow_spring_rest_controller/service/DagService.java:115-124 | one upstream call, the 404 mapping, and no audit row |
| DagService.DagService.RecordAfter | spring-airflow-controller-main/src/main/java/com/yigit/airflow_spring_rest_controller/service/DagService.java:74-77 | an audit write after a successful call appends exactly the expected row, or nothing when it fails |
| DagService.DagService.Rejected | spring-airflow-controller-main/src/main/java/com/yigit/airflow_spring_rest_controller/service/DagService.java:61-73 | a PATCH Airflow rejects records the failed call and writes no audit row |
| DagService.DagService.UpdateDag | spring-airflow-controller-main/src/main/java/com/yigit/airflow_spring_rest_controller/service/DagService.java:53-78 | the PATCH comes first and the row is written only after it succeeds; the result is the update outcome; a failed update leaves the table unchanged |
| DagService.DagService.DeleteDag | spring-airflow-controller-main/src/main/java/com/yigit/airflow_spring_rest_controller/service/DagService.java:80-102 | the DELETE row ("Deleted DAG: <id>", no run id) is written before the upstream DELETE; a failed write stops the call; the row stays when upstream then fails |
| DagService.DagService.RecordBefore | spring-airflow-controller-main/src/main/java/com/yigit/airflow_spring_rest_controller/service/DagService.java:83-85 | the DELETE audit write comes before the upstream call: on success exactly the row "Deleted DAG: <id>" is appended, on failure the table is unchanged and the error is the audit error |
| DagRunService.ForwardedParams | spring-airflow-controller-main/src/main/java/com/yigit/airflow_spring_rest_controller/service/DagRunService.java:42-48 | no more parameters are forwarded than there are query entries |
| DagRunService.ForwardedParamsMembership | spring-airflow-controller-main/src/main/java/com/yigit/airflow_spring_rest_controller/service/DagRunService.java:42-48 | a pair is forwarded exactly when it is a query entry with a non-null, non-empty value |
| DagRunService.ForwardedParamsAppend | spring-airflow-controller-main/src/main/java/com/yigit/airflow_spring_rest_controller/service/DagRunService.java:42-48 | the loop forwards entries in order: the parameters of two entry lists are those of each, concatenated |
| DagRunService.ForwardedParamsIdempotent | spring-airflow-controller-main/src/main/java/com/yigit/airflow_spring_rest_controller/service/DagRunService.java:42-48 | forwarding a list of non-empty parameters gives back that list |
| DagRunService.QueryParams | spring-airflow-controller-main/src/main/java/com/yigit/airflow_spring_rest_controller/service/DagRunService.java:36-58 | the loop over the entries produces exactly the forwarded parameters, and none for a null map |
| DagRunService.TriggerDetails | spring-airflow-controller-main/src/main/java/com/yigit/airflow_spring_rest_controller/service/DagRunService.java:66-67 | "Triggered DAG run", with " for date: <date>" only when a logical date is given |
| DagRunService.TriggerDetailsInjective | spring-airflow-controller-main/src/main/java/com/yigit/airflow_spring_rest_controller/service/DagRunService.java:66-67 | different logical dates give different details |
| DagRunService.StateDetails | spring-airflow-controller-main/src/main/java/com/yigit/airflow_spring_rest_controller/service/DagRunService.java:124 | "Updated state to: <state>", or "…null" when there is no state |
| DagRunService.DeleteRunDetailsInjective | spring-airflow-controller-main/src/main/java/com/yigit/airflow_spring_rest_controller/service/DagRunService.java:102 | the delete details name the run: different runs give different texts |
| DagRunService.ListDagRunsOutcome | spring-airflow-controller-main/src/main/java/com/yigit/airflow_spring_rest_controller/service/DagRunService.java:36-63 | listing runs succeeds iff upstream does; a 404 is "DAG not found" |
| DagRunService.ReadRunOutcome | spring-airflow-controller-main/src/main/java/com/yigit/airflow_spring_rest_controller/service/DagRunService.java:88-99 | reading a run succeeds iff upstream does; a 404 names the DAG and the run |
| DagRunService.CreateDagRunOutcome | spring-airflow-controller-main/src/main/java/com/yigit/airflow_spring_rest_controller/service/DagRunService.java:65-86 | a trigger succeeds iff upstream and the audit write succeed; 404 is DAG not found and 409 is a conflict |
| DagRunService.RunMutationOutcome | spring-airflow-controller-main/src/main/java/com/yigit/airflow_spring_rest_controller/service/DagRunService.java:123-157 | a state change or clear succeeds iff upstream and the audit write succeed; a 404 is "DAG run not found" |
| DagRunService.DeleteDagRunOutcome | spring-airflow-controller-main/src/main/java/com/yigit/airflow_spring_rest_controller/service/DagRunService.java:101-121 | a run delete succeeds iff the audit write and upstream both succeed; the write's failure is the error; a 404 is "DAG run not found" |
| DagRunService.RunDeleteConflictAnsweredAsAuthFailure | spring-airflow-controller-main/src/main/java/com/yigit/airflow_spring_rest_controller/service/DagRunService.java:110-117 | an upstream 409 on a run delete reaches the client as a 401 |
| DagRunService.DagRunService.constructor | spring-airflow-controller-main/src/main/java/com/yigit/airflow_spring_rest_controller/service/DagRunService.java:65-157 | a new service starts with its table and trace in step |
| DagRunService.DagRunService.Read | spring-airflow-controller-main/src/main/java/com/yigit/airflow_spring_rest_controller/service/DagRunService.java:88-99 | a read records one upstream call and no audit row |
| DagRunService.DagRunService.GetDagRuns | spring-airflow-controller-main/src/main/java/com/yigit/airflow_spring_rest_controller/service/DagRunService.java:36-58 | the forwarded query is the filtered entries; one upstream call; no audit row |
| DagRunService.DagRunService.GetAllDagRuns | spring-airflow-controller-main/src/main/java/com/yigit/airflow_spring_rest_controller/service/DagRunService.java:61-63 | listing without a map forwards no parameters |
| DagRunService.DagRunService.GetDagRun | spring-airflow-controller-main/src/main/java/com/yigit/airflow_spring_rest_controller/service/DagRunService.java:88-99 | one upstream call with the run-not-found mapping; no audit row |
| DagRunService.DagRunService.GetUpstreamDatasetEvents | spring-airflow-controller-main/src/main/java/com/yigit/airflow_spring_rest_controller/service/DagRunService.java:159-170 | one upstream call; no audit row |
| DagRunService.DagRunService.SetDagRunNote | spring-airflow-controller-main/src/main/java/com/yigit/airflow_spring_rest_controller/service/DagRunService.java:172-185 | one upstream call; no audit row |
| DagRunService.DagRunService.RecordAfter | spring-airflow-controller-main/src/main/java/com/yigit/airflow_spring_rest_controller/service/DagRunService.java:82-85 | an audit write after success appends exactly the expected row, or nothing |
| DagRunService.DagRunService.Rejected | spring-airflow-controller-main/src/main/java/com/yigit/airflow_spring_rest_controller/service/DagRunService.java:72-80 | a rejected call records the failed call and no audit row |
| DagRunService.DagRunService.CreateDagRun | spring-airflow-controller-main/src/main/java/com/yigit/airflow_spring_rest_controller/service/DagRunService.java:65-86 | TRIGGER is audited only after upstream success, with the run id from the upstream reply; 404 and 409 write no row |
| DagRunService.DagRunService.UpdateDagRunState | spring-airflow-controller-main/src/main/java/com/yigit/airflow_spring_rest_controller/service/DagRunService.java:123-139 | UPDATE_STATE with "Updated state to: <state>" is audited only after upstream success |
| DagRunService.DagRunService.ClearDagRun | spring-airflow-controller-main/src/main/java/com/yigit/airflow_spring_rest_controller/service/DagRunService.java:141-157 | CLEAR with "Cleared DAG run" is audited only after upstream success |
| DagRunService.DagRunService.DeleteDagRun | spring-airflow-controller-main/src/main/java/com/yigit/airflow_spring_rest_controller/service/DagRunService.java:101-121 | the DELETE row with the run id and "Deleted DAG run: <run> for DAG: <dag>" is written before the upstream DELETE, and a failed write stops the call |
| DagRunService.DagRunService.RecordBefore | spring-airflow-controller-main/src/main/java/com/yigit/airflow_spring_rest_controller/service/DagRunService.java:105-107 | the DELETE audit write for a run comes before the upstream call: exactly one row naming the DAG and the run is appended, or none and the audit error is returned |
| DagController.FilterDags | spring-airflow-controller-main/src/main/java/com/yigit/airflow_spring_rest_controller/controller/DagController.java:82-88 | every returned DAG satisfies every supplied filter |
| DagController.NoFilterKeepsAll | spring-airflow-controller-main/src/main/java/com/yigit/airflow_spring_rest_controller/controller/DagController.java:82-88 | with no filter, every DAG is kept |
| DagController.NullFlagsNeverMatch | spring-airflow-controller-main/src/main/java/com/yigit/airflow_spring_rest_controller/controller/DagController.java:83-84 | with an `isActive` or `isPaused` filter set, only DAGs with exactly that flag remain, so a null flag is dropped |
| DagController.FilterDagsExact | spring-airflow-controller-main/src/main/java/com/yigit/airflow_spring_rest_controller/controller/DagController.java:82-88 | a DAG is returned iff it is listed and passes the filters (search: id or description contains the term, ignoring case); order is kept |
| DagController.PageAsWritten | spring-airflow-controller-main/src/main/java/com/yigit/airflow_spring_rest_controller/controller/DagController.java:90-97 | as written: at most `size` DAGs, a contiguous run of the filtered list at the wrapped offset, empty from the end on; a negative wrapped offset is the `subList` error for that offset |
| DagController.PageIntended | spring-airflow-controller-main/src/main/java/com/yigit/airflow_spring_rest_controller/controller/DagController.java:90-97 | intended: for non-negative arguments, the page `filtered[page*size .. min(page*size+size, total))`; a negative offset is an index-out-of-bounds error naming it, and a negative size an illegal-argument error |
| DagController.SubListError | spring-airflow-controller-main/src/main/java/com/yigit/airflow_spring_rest_controller/controller/DagController.java:95-97 | the exception `subList` raises for a bad range: an index-out-of-bounds error naming a negative start, otherwise an illegal-argument error |
| DagController.PageAgreesWithoutOverflow | spring-airflow-controller-main/src/main/java/com/yigit/airflow_spring_rest_controller/controller/DagController.java:90-97 | without int overflow the code as written computes the intended page |
| DagController.AgreesWhereNoOverflow | spring-airflow-controller-main/src/main/java/com/yigit/airflow_spring_rest_controller/controller/DagController.java:90-97 | wherever `page*size` and `page*size+size` fit in an `int`, the page as written is the intended page |
| DagController.PageWrapsAround | spring-airflow-controller-main/src/main/java/com/yigit/airflow_spring_rest_controller/controller/DagController.java:90-97 | page 429496730 of size 10 over five DAGs returns the fifth DAG as written, and nothing as intended |
| DagController.GetDags | spring-airflow-controller-main/src/main/java/com/yigit/airflow_spring_rest_controller/controller/DagController.java:73-100 | as written: `totalEntries` is the filtered count; every returned DAG passes the filters; when `page*size+size` fits in an `int`, the DAGs are exactly the requested page of the filtered list; upstream errors pass through |
| DagController.PagedAsWritten | spring-airflow-controller-main/src/main/java/com/yigit/airflow_spring_rest_controller/controller/DagController.java:82-97 | every DAG of the page as written passes the filters, and without overflow the page is the intended one |
| DagController.GetDagsWrapsAround | spring-airflow-controller-main/src/main/java/com/yigit/airflow_spring_rest_controller/controller/DagController.java:90-97 | the whole endpoint, asked for page 429496730 of size 10 over five DAGs, returns the fifth DAG with a total of 5, where the intended page is empty |
| DagController.DeleteDag | spring-airflow-controller-main/src/main/java/com/yigit/airflow_spring_rest_controller/controller/DagController.java:207-224 | a null or blank id is rejected with no audit row and no upstream call; otherwise the result is the service's delete outcome |
| DagController.GuardCoversAuditCheck | spring-airflow-controller-main/src/main/java/com/yigit/airflow_spring_rest_controller/controller/DagController.java:216-219 | once the controller's guard passes, the service's own DAG-id check can no longer fail |
| DagRunController.QueryMap | spring-airflow-controller-main/src/main/java/com/yigit/airflow_spring_rest_controller/controller/DagRunController.java:87-93 | "state" and "dag_run_id" are keys iff their values are non-null and non-empty, with those values, and there is no other key |
| DagRunController.Entries | spring-airflow-controller-main/src/main/java/com/yigit/airflow_spring_rest_controller/controller/DagRunController.java:87-95 | the map is handed on entry by entry, without loss |
| DagRunController.GetDagRuns | spring-airflow-controller-main/src/main/java/com/yigit/airflow_spring_rest_controller/controller/DagRunController.java:72-96 | exactly the given filters reach Airflow under their keys; the result is the service's listing outcome |
| DagRunCreate.DagRunCreate.constructor | spring-airflow-controller-main/src/main/java/com/yigit/airflow_spring_rest_controller/dto/dagrun/DagRunCreate.java:10-33 | a new request has every field unset |
| DagRunCreate.DagRunCreate.SetLogicalDate | spring-airflow-controller-main/src/main/java/com/yigit/airflow_spring_rest_controller/dto/dagrun/DagRunCreate.java:35-38 | setting the logical date sets the execution date to the same value and nothing else |
| DagRunCreate.DagRunCreate.SetExecutionDate | spring-airflow-controller-main/src/main/java/com/yigit/airflow_spring_rest_controller/dto/dagrun/DagRunCreate.java:40-43 | setting the execution date sets the logical date to the same value and nothing else |
| DagRunCreate.DagRunCreate.SetDagRunId | spring-airflow-controller-main/src/main/java/com/yigit/airflow_spring_rest_controller/dto/dagrun/DagRunCreate.java:10-12 | the run id changes alone, and the two dates stay equal |
| DagRunCreate.DagRunCreate.SetNote | spring-airflow-controller-main/src/main/java/com/yigit/airflow_spring_rest_controller/dto/dagrun/DagRunCreate.java:33 | the note changes alone, and the two dates stay equal |
| PageResponse.CeilDiv | spring-airflow-controller-main/src/main/java/com/yigit/airflow_spring_rest_controller/dto/common/PageResponse.java:17 | integer ceiling: for a positive divisor, `(q-1)*b < a <= q*b` |
| PageResponse.TotalPages | spring-airflow-controller-main/src/main/java/com/yigit/airflow_spring_rest_controller/dto/common/PageResponse.java:17 | the ceiling saturated into the int range; zero elements give zero pages; for a positive size the pages just cover the elements |
| PageResponse.TotalPagesCover | spring-airflow-controller-main/src/main/java/com/yigit/airflow_spring_rest_controller/dto/common/PageResponse.java:17 | for a positive size and a count within int, there are at most as many pages as elements, and they just cover them |
| PageResponse.PageResponse.constructor | spring-airflow-controller-main/src/main/java/com/yigit/airflow_spring_rest_controller/dto/common/PageResponse.java:5-10 | a new response has every field zero |
| PageResponse.PageResponse.SetCurrentPage | spring-airflow-controller-main/src/main/java/com/yigit/airflow_spring_rest_controller/dto/common/PageResponse.java:7 | sets the current page alone, keeping each field within its Java width |
| PageResponse.PageResponse.SetPageSize | spring-airflow-controller-main/src/main/java/com/yigit/airflow_spring_rest_controller/dto/common/PageResponse.java:9 | sets the page size alone, keeping each field within its Java width |
| PageResponse.PageResponse.SetTotalElements | spring-airflow-controller-main/src/main/java/com/yigit/airflow_spring_rest_controller/dto/common/PageResponse.java:10 | sets the element count alone, keeping each field within its Java width |
| PageResponse.PageResponse.SetTotalPages | spring-airflow-controller-main/src/main/java/com/yigit/airflow_spring_rest_controller/dto/common/PageResponse.java:8 | sets the page count alone, keeping each field within its Java width |
| PageResponse.Of | spring-airflow-controller-main/src/main/java/com/yigit/airflow_spring_rest_controller/dto/common/PageResponse.java:12-19 | a fresh response carrying the page, size and count, with the total pages computed from them |
| Forms.Values | spring-airflow-controller-main/src/main/java/com/yigit/airflow_spring_rest_controller/service/KeycloakService.java:60-65 | a key has no more values than the form has entries |
| Forms.Keys | spring-airflow-controller-main/src/main/java/com/yigit/airflow_spring_rest_controller/service/KeycloakService.java:60-65 | the keys of a form, one per entry, in order |
| Forms.SingleValue | spring-airflow-controller-main/src/main/java/com/yigit/airflow_spring_rest_controller/service/KeycloakService.java:60-65 | a key added once has exactly that one value |
| Forms.NoValues | spring-airflow-controller-main/src/main/java/com/yigit/airflow_spring_rest_controller/service/KeycloakService.java:60-65 | a key never added has no values |
| Forms.FormData.constructor | spring-airflow-controller-main/src/main/java/com/yigit/airflow_spring_rest_controller/service/KeycloakService.java:60 | a new form is empty |
| Forms.FormData.Add | spring-airflow-controller-main/src/main/java/com/yigit/airflow_spring_rest_controller/service/KeycloakService.java:61-65 | `add` appends one entry and keeps the earlier ones |
| UserRepository.FindById | spring-airflow-controller-main/src/main/java/com/yigit/airflow_spring_rest_controller/repository/UserRepository.java:15 | a row is found iff one with that id exists, and it has that id |
| UserRepository.FindByIdUnique | spring-airflow-controller-main/src/main/java/com/yigit/airflow_spring_rest_controller/repository/UserRepository.java:15 | in a table keyed by id, the row found for an id is the row with that id |
| UserRepository.FindOne | spring-airflow-controller-main/src/main/java/com/yigit/airflow_spring_rest_controller/repository/UserRepository.java:22-29 | a single-result finder gives nothing for no match, the row for one match, and an error for several |
| UserRepository.FindByUsername | spring-airflow-controller-main/src/main/java/com/yigit/airflow_spring_rest_controller/repository/UserRepository.java:22 | a row with that username, or empty exactly when there is none |
| UserRepository.FindByEmail | spring-airflow-controller-main/src/main/java/com/yigit/airflow_spring_rest_controller/repository/UserRepository.java:29 | a row with that e-mail, or empty exactly when there is none |
| UserRepository.FindByFirstNameAndLastName | spring-airflow-controller-main/src/main/java/com/yigit/airflow_spring_rest_controller/repository/UserRepository.java:44 | exactly the rows matching both names, in table order |
| UserRepository.FindByEnabledTrue | spring-airflow-controller-main/src/main/java/com/yigit/airflow_spring_rest_controller/repository/UserRepository.java:50 | exactly the enabled users, in table order |
| UserRepository.FindUsersCreatedAfter | spring-airflow-controller-main/src/main/java/com/yigit/airflow_spring_rest_controller/repository/UserRepository.java:57-58 | exactly the rows created strictly after the timestamp; a null timestamp matches nothing |
| UserRepository.InsertRows | spring-airflow-controller-main/src/main/java/com/yigit/airflow_spring_rest_controller/repository/UserRepository.java:15 | inserting an existing id is a duplicate-key error; otherwise the row is appended, or the storage error is returned |
| UserRepository.InsertKeepsKey | spring-airflow-controller-main/src/main/java/com/yigit/airflow_spring_rest_controller/repository/UserRepository.java:15 | an insert keeps at most one row per id |
| UserRepository.IndexOfId | spring-airflow-controller-main/src/main/java/com/yigit/airflow_spring_rest_controller/repository/UserRepository.java:36 | the position of the row with that id, or -1 exactly when `existsById` is false |
| UserRepository.SaveRows | spring-airflow-controller-main/src/main/java/com/yigit/airflow_spring_rest_controller/repository/UserRepository.java:15 | `save` of an entity with a preset id is an update: it replaces the stored row, and fails when no row has that id |
| UserRepository.SaveKeepsKey | spring-airflow-controller-main/src/main/java/com/yigit/airflow_spring_rest_controller/repository/UserRepository.java:15 | a successful `save` keeps at most one row per id |
| UserRepository.UserTable.constructor | spring-airflow-controller-main/src/main/java/com/yigit/airflow_spring_rest_controller/repository/UserRepository.java:15 | a new user table is empty and keyed by id |
| UserRepository.UserTable.Insert | spring-airflow-controller-main/src/main/java/com/yigit/airflow_spring_rest_controller/repository/UserRepository.java:15 | the table becomes exactly the insert result, or stays as it was on error |
| UserRepository.UserTable.Save | spring-airflow-controller-main/src/main/java/com/yigit/airflow_spring_rest_controller/repository/UserRepository.java:15 | the table becomes exactly the `save` result (the row with that id replaced), or stays as it was on error; it stays keyed by id |
| UserSyncService.AdminTokenForm | spring-airflow-controller-main/src/main/java/com/yigit/airflow_spring_rest_controller/service/synchronization/UserSyncService.java:91-95 | the admin-token form is built by four successive adds |
| UserSyncService.AdminTokenFieldsSent | spring-airflow-controller-main/src/main/java/com/yigit/airflow_spring_rest_controller/service/synchronization/UserSyncService.java:91-95 | the form is `grant_type=password`, `client_id=admin-cli` and the admin username and password, each once |
| UserSyncService.AdminToken | spring-airflow-controller-main/src/main/java/com/yigit/airflow_spring_rest_controller/service/synchronization/UserSyncService.java:88-106 | the token is the reply's `access_token`; an HTTP error passes through; a reply without a token is an error |
| UserSyncService.CreatedTimestamp | spring-airflow-controller-main/src/main/java/com/yigit/airflow_spring_rest_controller/service/synchronization/UserSyncService.java:137 | a missing timestamp is a null-pointer error; a parsed one fits in a long |
| UserSyncService.NumberTimestamp | spring-airflow-controller-main/src/main/java/com/yigit/airflow_spring_rest_controller/service/synchronization/UserSyncService.java:137 | a JSON number within a long is taken as is, and one outside is a number-format error |
| UserSyncService.FlagTimestampFails | spring-airflow-controller-main/src/main/java/com/yigit/airflow_spring_rest_controller/service/synchronization/UserSyncService.java:137 | a boolean timestamp never parses |
| UserSyncService.MapToUser | spring-airflow-controller-main/src/main/java/com/yigit/airflow_spring_rest_controller/service/synchronization/UserSyncService.java:133-145 | mapping fails iff the timestamp does not parse; otherwise every copied field equals the Keycloak field |
| UserSyncService.SaveUser | spring-airflow-controller-main/src/main/java/com/yigit/airflow_spring_rest_controller/service/synchronization/UserSyncService.java:156-177 | intended: a null id fails; an existing id is skipped with the table unchanged; a new id is inserted and counted as new |
| UserSyncService.SaveUserAsWritten | spring-airflow-controller-main/src/main/java/com/yigit/airflow_spring_rest_controller/service/synchronization/UserSyncService.java:156-177 | as written: a null id fails, an existing id is skipped, and a save never adds a row |
| UserSyncService.NewUserNeverStoredAsWritten | spring-airflow-controller-main/src/main/java/com/yigit/airflow_spring_rest_controller/service/synchronization/UserSyncService.java:170 | as written, a user whose id is not yet stored is never saved: the save fails as an update of a missing row |
| UserSyncService.NewUserStored | spring-airflow-controller-main/src/main/java/com/yigit/airflow_spring_rest_controller/service/synchronization/UserSyncService.java:167-176 | intended: a new user is appended and counted as inserted |
| UserSyncService.SaveWith | spring-airflow-controller-main/src/main/java/com/yigit/airflow_spring_rest_controller/service/synchronization/UserSyncService.java:156-177 | for either write: a null id fails, an existing id is skipped with the table unchanged, a success appends exactly the user when it was new, and only the insert ever adds a user |
| UserSyncService.SyncOutcome | spring-airflow-controller-main/src/main/java/com/yigit/airflow_spring_rest_controller/service/synchronization/UserSyncService.java:66-81 | for either write, a failed admin-token request or user listing is the error of the whole run |
| UserSyncService.SyncAppendsOnly | spring-airflow-controller-main/src/main/java/com/yigit/airflow_spring_rest_controller/service/synchronization/UserSyncService.java:160-176 | for either write, a run only appends: the old rows are kept unchanged, followed by one row per inserted user |
| UserSyncService.SyncCounts | spring-airflow-controller-main/src/main/java/com/yigit/airflow_spring_rest_controller/service/synchronization/UserSyncService.java:70-79 | for either write, in a run without failure, inserted plus skipped equals the number of users processed |
| UserSyncService.SyncKeepsKey | spring-airflow-controller-main/src/main/java/com/yigit/airflow_spring_rest_controller/service/synchronization/UserSyncService.java:160-176 | for either write, a run keeps at most one row per id |
| UserSyncService.SyncStoresAll | spring-airflow-controller-main/src/main/java/com/yigit/airflow_spring_rest_controller/service/synchronization/UserSyncService.java:160-176 | for either write, after a run without failure, every listed user maps and its id is stored |
| UserSyncService.SyncAllPresent | spring-airflow-controller-main/src/main/java/com/yigit/airflow_spring_rest_controller/service/synchronization/UserSyncService.java:160-166 | for either write, when every listed user is already stored, the run inserts nothing and skips every user |
| UserSyncService.SyncIdempotent | spring-airflow-controller-main/src/main/java/com/yigit/airflow_spring_rest_controller/service/synchronization/UserSyncService.java:160-176 | for either write, a second run over the same users inserts 0 and skips every user |
| UserSyncService.SyncFailureStays | spring-airflow-controller-main/src/main/java/com/yigit/airflow_spring_rest_controller/service/synchronization/UserSyncService.java:75-80 | for either write, once a save fails, later users change nothing and the failure is the run's result |
| UserSyncService.SyncAsWrittenStoresNothing | spring-airflow-controller-main/src/main/java/com/yigit/airflow_spring_rest_controller/service/synchronization/UserSyncService.java:160-176 | as written, a run never changes the table and counts no user as new |
| UserSyncService.NewUserFailsSyncAsWritten | spring-airflow-controller-main/src/main/java/com/yigit/airflow_spring_rest_controller/service/synchronization/UserSyncService.java:66-81 | as written, a run over a list holding a mappable user whose id is not stored always ends with an error |
| UserSyncService.SyncOfNewUser | spring-airflow-controller-main/src/main/java/com/yigit/airflow_spring_rest_controller/service/synchronization/UserSyncService.java:170 | for one new user, the run as written fails with the missing-row error and leaves the table alone, while the intended insert stores the user and counts it as new |
| UserSyncService.Counter.constructor | spring-airflow-controller-main/src/main/java/com/yigit/airflow_spring_rest_controller/service/synchronization/UserSyncService.java:70-71 | a counter starts at the given value |
| UserSyncService.Counter.IncrementAndGet | spring-airflow-controller-main/src/main/java/com/yigit/airflow_spring_rest_controller/service/synchronization/UserSyncService.java:163 | `incrementAndGet` raises the counter by one and returns the new value |
| UserSyncService.SaveUserToDatabase | spring-airflow-controller-main/src/main/java/com/yigit/airflow_spring_rest_controller/service/synchronization/UserSyncService.java:156-177 | for either write (the code's `save` or the intended insert): the table becomes the write's result; exactly one of the two counters goes up, and only after the write succeeds; on error nothing changes |
| UserSyncService.SyncUsers | spring-airflow-controller-main/src/main/java/com/yigit/airflow_spring_rest_controller/service/synchronization/UserSyncService.java:66-81 | for either write: the run's result and the final table are those of processing the listed users one by one |
| UserSyncService.SaveAll | spring-airflow-controller-main/src/main/java/com/yigit/airflow_spring_rest_controller/service/synchronization/UserSyncService.java:74-76 | for either write: saving the listed users in order leaves the table and the first error exactly as the one-by-one run over the list defines them |
| UserSyncService.SyncOne | spring-airflow-controller-main/src/main/java/com/yigit/airflow_spring_rest_controller/service/synchronization/UserSyncService.java:74 | for either write: mapping, saving and counting one user are one step of the run; a mapping or save error stops with the table unchanged |
| KeycloakTokens.ToStringRedacts | spring-airflow-controller-main/src/main/java/com/yigit/airflow_spring_rest_controller/dto/auth/KeycloakTokenResponse.java:27-35 | the text shows both token fields as redacted |
| KeycloakTokens.ToStringIgnoresTokens | spring-airflow-controller-main/src/main/java/com/yigit/airflow_spring_rest_controller/dto/auth/KeycloakTokenResponse.java:27-35 | the text does not depend on the access or refresh token, so it never reveals them |
| KeycloakTokens.ToStringLeadsWithTokenType | spring-airflow-controller-main/src/main/java/com/yigit/airflow_spring_rest_controller/dto/auth/KeycloakTokenResponse.java:27-35 | the text begins with the class name and the token type |
| KeycloakTokens.ConvertToTokenResponse | spring-airflow-controller-main/src/main/java/com/yigit/airflow_spring_rest_controller/service/KeycloakService.java:159-166 | the access token, refresh token, lifetime and token type are copied |
| KeycloakTokens.ConvertDropsScope | spring-airflow-controller-main/src/main/java/com/yigit/airflow_spring_rest_controller/service/KeycloakService.java:159-166 | the scope has no effect on the result |
| KeycloakTokens.ConvertKeepsTheRest | spring-airflow-controller-main/src/main/java/com/yigit/airflow_spring_rest_controller/service/KeycloakService.java:159-166 | two replies with the same result differ at most in scope |
| KeycloakService.TokenUriNamesRealm | spring-airflow-controller-main/src/main/java/com/yigit/airflow_spring_rest_controller/service/KeycloakService.java:27 | the token URI names the configured realm |
| KeycloakService.Description | spring-airflow-controller-main/src/main/java/com/yigit/airflow_spring_rest_controller/service/KeycloakService.java:117-123 | a description found is the non-empty, quote-free text after `"error_description":"`, up to the next quote |
| KeycloakService.DescriptionOfCompactBody | spring-airflow-controller-main/src/main/java/com/yigit/airflow_spring_rest_controller/service/KeycloakService.java:117-123 | in a compact JSON body the description is found exactly |
| KeycloakService.DescriptionMissedAfterSpace | spring-airflow-controller-main/src/main/java/com/yigit/airflow_spring_rest_controller/service/KeycloakService.java:117-123 | with a space after the colon the fixed offset lands before the opening quote, so the description is missed |
| KeycloakService.FriendlyMessage | spring-airflow-controller-main/src/main/java/com/yigit/airflow_spring_rest_controller/service/KeycloakService.java:126-132 | "Invalid user credentials" becomes "Invalid username or password"; "Invalid client" becomes the system-error text; anything else is kept verbatim |
| KeycloakService.ErrorMessage | spring-airflow-controller-main/src/main/java/com/yigit/airflow_spring_rest_controller/service/KeycloakService.java:110-135 | without a description the message is "<operation> failed: <status>"; with one it is the friendly form |
| KeycloakService.RequestToken | spring-airflow-controller-main/src/main/java/com/yigit/airflow_spring_rest_controller/service/KeycloakService.java:94-154 | success iff the reply is a success, converted; an error status is an authentication error with the error message; a transport error passes through |
| KeycloakService.RefusedGrantIs401 | spring-airflow-controller-main/src/main/java/com/yigit/airflow_spring_rest_controller/service/KeycloakService.java:100-139 | a refused token request reaches the client as a 401 "Authentication Error" carrying the error message |
| KeycloakService.WrongPasswordMessage | spring-airflow-controller-main/src/main/java/com/yigit/airflow_spring_rest_controller/service/KeycloakService.java:117-132 | a body reporting invalid credentials gives "Invalid username or password" |
| KeycloakService.LoginFieldsSent | spring-airflow-controller-main/src/main/java/com/yigit/airflow_spring_rest_controller/service/KeycloakService.java:60-65 | the login form is exactly `grant_type=password`, client id, client secret, username and password, with no refresh token |
| KeycloakService.RefreshFieldsSent | spring-airflow-controller-main/src/main/java/com/yigit/airflow_spring_rest_controller/service/KeycloakService.java:79-83 | the refresh form is exactly `grant_type=refresh_token`, client id, client secret and the refresh token, with no username or password |
| KeycloakService.KeycloakService.constructor | spring-airflow-controller-main/src/main/java/com/yigit/airflow_spring_rest_controller/service/KeycloakService.java:37-52 | the client keeps its realm and client credentials |
| KeycloakService.KeycloakService.Login | spring-airflow-controller-main/src/main/java/com/yigit/airflow_spring_rest_controller/service/KeycloakService.java:57-71 | login posts the login form to the realm's token URI and returns the token-request outcome |
| KeycloakService.KeycloakService.RefreshToken | spring-airflow-controller-main/src/main/java/com/yigit/airflow_spring_rest_controller/service/KeycloakService.java:76-89 | refresh posts the refresh form to the realm's token URI and returns the token-request outcome |
| Sorting.SortNewestFirst | airflow-controller-ui-main/src/components/AuditLogs.tsx:79-81 | the audit-log sort returns the same rows, as a multiset, ordered by operation time with the newest first |
| Sorting.SortNewestFirstStable | airflow-controller-ui-main/src/components/AuditLogs.tsx:79-81 | the sort is stable: rows with the same time keep their input order |
| Sorting.SortedDistinct | airflow-controller-ui-main/src/components/AuditLogs.tsx:43-52 | `Array.from(new Set(xs)).sort()`: strictly ascending, containing exactly the values of `xs` |
| StatusChip.ChipColour | airflow-controller-ui-main/src/components/common/StatusChip.tsx:11-23 | an empty status is default; otherwise, ignoring case, success, running, failed, upstream_failed and queued map to their colours, each in both directions, and everything else to default |
| StatusChip.ChipColourIgnoresCase | airflow-controller-ui-main/src/components/common/StatusChip.tsx:14 | the colour depends on the status only up to case |
| StatusChip.ChipLabel | airflow-controller-ui-main/src/components/common/StatusChip.tsx:26 | the label is never empty: the status itself, or "unknown" when it is empty |
| TaskInstances.TaskStateColour | airflow-controller-ui-main/src/components/TaskInstances.tsx:33-43 | task-state colours: the same four colours as the chip, never secondary, default otherwise |
| TaskInstances.TaskColourAgreesWithChip | airflow-controller-ui-main/src/components/TaskInstances.tsx:33-43 | a task-state colour equals the chip colour, except that queued is default here |
| TaskInstances.MaxTryNumber | airflow-controller-ui-main/src/components/TaskInstances.tsx:146 | the try count handed to the log view is each task instance's try number, or 1 when it is absent or 0 |
| TaskLog.TryOptions | airflow-controller-ui-main/src/components/TaskLog.tsx:54-60 | the loop yields the tries 1, 2, …, max in order, and none when max is below 1 |
| TaskLog.OptionsFromTaskTable | airflow-controller-ui-main/src/components/TaskLog.tsx:54-60 | when opened from the table of task instances, the try list starts at 1 and is never empty |
| TaskLog.ResolveId | airflow-controller-ui-main/src/components/TaskLog.tsx:45-47 | a non-empty prop id wins over the route parameter |
| TaskLog.DownloadNamesDistinct | airflow-controller-ui-main/src/components/TaskLog.tsx:95 | "<dag>_<task>_try<n>.log" names different tries differently |
| TaskLog.TaskLogView.constructor | airflow-controller-ui-main/src/components/TaskLog.tsx:49-52 | no logs, not loading, no error, try 1 |
| TaskLog.TaskLogView.FetchLogs | airflow-controller-ui-main/src/components/TaskLog.tsx:62-86 | a missing id sets the missing-parameters error and fetches nothing; otherwise one request for the selected try; empty logs show the no-logs text; an error shows its message or the fallback |
| TaskLog.TaskLogView.SelectTry | airflow-controller-ui-main/src/components/TaskLog.tsx:118 | choosing a try changes only the try number |
| ErrorHandling.FirstTruthyPicksFirst | airflow-controller-ui-main/src/utils/errorHandling.ts:24-52 | the first non-empty candidate is the message |
| ErrorHandling.FirstTruthyFallback | airflow-controller-ui-main/src/utils/errorHandling.ts:51 | with no non-empty candidate, the fallback is the message |
| ErrorHandling.ExtractErrorMessage | airflow-controller-ui-main/src/utils/errorHandling.ts:24-52 | the extracted message is never empty |
| ErrorHandling.ExtractIsFirstTruthy | airflow-controller-ui-main/src/utils/errorHandling.ts:24-52 | the priority is `error.detail`, then `detail`, then `message` of the body, then the error's own message, then the fallback |
| ErrorHandling.ServerDetailShown | airflow-controller-ui-main/src/utils/errorHandling.ts:35-37 | for any error the server's handler answers with a non-empty detail, the UI shows that detail |
| ErrorHandling.ContextPrefix | airflow-controller-ui-main/src/utils/errorHandling.ts:60 | "[<context>] " for a non-empty context, empty otherwise |
| UiDagRunService.FirstMillis | airflow-controller-ui-main/src/services/dagRunService.ts:47 | the first position of a "." followed by three digits, or -1 when there is none |
| UiDagRunService.StripMillis | airflow-controller-ui-main/src/services/dagRunService.ts:45-47 | the first ".ddd" is removed and the rest kept; text without one is unchanged |
| UiDagRunService.StripMillisOfIso | airflow-controller-ui-main/src/services/dagRunService.ts:45-47 | an ISO timestamp loses exactly its milliseconds |
| UiDagRunService.CreateRunPayload | airflow-controller-ui-main/src/services/dagRunService.ts:43-60 | the payload carries the run id, the stripped date, the given conf or the default one, `external_trigger`, and note and state only when non-empty |
| UiDagRunService.ClearBody | airflow-controller-ui-main/src/services/dagRunService.ts:65-66 | clearing without parameters sends `dry_run: false`; otherwise the given parameters |
| DagRuns.FilteredDagRuns | airflow-controller-ui-main/src/components/DagRuns.tsx:137-149 | a run is shown iff its state equals the state filter (when set) and its id contains the id filter ignoring case (when set) |
| DagRuns.FilteredKeepsOrder | airflow-controller-ui-main/src/components/DagRuns.tsx:137-149 | filtering keeps the runs' order |
| DagRuns.EmptyFiltersKeepAll | airflow-controller-ui-main/src/components/DagRuns.tsx:137-149 | with empty filters every run is shown |
| DagRuns.RunStatusCounts | airflow-controller-ui-main/src/components/DagRuns.tsx:127-135 | `all` is the number of runs; each of the queued, running, success and failed counts is exactly the number of runs in that state; the four add up to at most `all`, exactly `all` when every run has one of those states |
| DagRuns.StateCount | airflow-controller-ui-main/src/components/DagRuns.tsx:127-135 | the `filter(...).length` count of a state is the number of positions holding a run in that state |
| DagRuns.CountsAddUp | airflow-controller-ui-main/src/components/DagRuns.tsx:127-135 | the four state counts are bounded by, and with only counted states equal to, the number of runs |
| DagRuns.RunStateColour | airflow-controller-ui-main/src/components/DagRuns.tsx:249-260 | success, running and failed, ignoring case, get their colours (in both directions); everything else is default |
| DagRuns.RunColourAgreesWithChip | airflow-controller-ui-main/src/components/DagRuns.tsx:249-260 | the run colour equals the chip colour except that upstream_failed and queued are default here |
| DagRuns.RunIdOrDefault | airflow-controller-ui-main/src/components/DagRuns.tsx:165-167 | an entered run id is kept; an empty one becomes "manual_<ms>" |
| DagRuns.DefaultRunIdCarriesTime | airflow-controller-ui-main/src/components/DagRuns.tsx:167 | the generated id carries the clock reading, which parses back |
| DagRuns.DefaultRunIdsDiffer | airflow-controller-ui-main/src/components/DagRuns.tsx:167 | runs created at different milliseconds get different ids |
| DagRuns.ConfMessage | airflow-controller-ui-main/src/components/DagRuns.tsx:174 | the conf message is the notes, or "Triggered from UI" when they are empty |
| DagRuns.CreatedRunPayload | airflow-controller-ui-main/src/components/DagRuns.tsx:158-183 | the created run always has a non-empty id and message, five parameters starting with `source: frontend_app`, with `priority` kept as a JSON number, `external_trigger`, and no note or state |
| DagRuns.DagRunsView.constructor | airflow-controller-ui-main/src/components/DagRuns.tsx:78-95 | no runs, empty filters, no error, not loading |
| DagRuns.DagRunsView.HandleFilterChange | airflow-controller-ui-main/src/components/DagRuns.tsx:151-156 | the named filter takes the new value and nothing else changes |
| DagRuns.DagRunsView.FetchDagRuns | airflow-controller-ui-main/src/components/DagRuns.tsx:98-121 | without a DAG id nothing happens; otherwise the state filter is sent unless it is "all", the runs are the reply's array or its `dag_runs` list, and an error is shown with its prefix |
| UiAuditLogService.HasAdminRole | airflow-controller-ui-main/src/services/auditLogService.ts:76-90 | admin iff the stored auth parses, has a user, and its realm roles include `airflow-admin` |
| UiAuditLogService.CurrentUserId | airflow-controller-ui-main/src/services/auditLogService.ts:58-70 | the stored user's `sub`, or empty when anything is missing |
| UiAuditLogService.VisibleLogs | airflow-controller-ui-main/src/services/auditLogService.ts:10-53 | an admin sees every row; anyone else exactly the rows whose user id is theirs |
| UiAuditLogService.VisibleLogsKeepOrder | airflow-controller-ui-main/src/services/auditLogService.ts:22 | the own-row filter keeps the rows' order |
| UiAuditLogService.AnonymousSeesNoOwnedRows | airflow-controller-ui-main/src/services/auditLogService.ts:61-64 | without stored auth or a user, only rows with an empty user id remain |
| UiAuditLogService.VisibleLogsIdempotent | airflow-controller-ui-main/src/services/auditLogService.ts:19-23 | filtering twice is filtering once |
| AuditLogsPage.FilteredLogs | airflow-controller-ui-main/src/components/AuditLogs.tsx:97-119 | a row is shown iff it matches the operation and DAG filters when set, and, for an admin, the username contains the search text ignoring case |
| AuditLogsPage.FilteredLogsKeepOrder | airflow-controller-ui-main/src/components/AuditLogs.tsx:97-119 | filtering keeps the rows' order |
| AuditLogsPage.SearchIgnoredForNonAdmin | airflow-controller-ui-main/src/components/AuditLogs.tsx:109-115 | for a non-admin the search box has no effect |
| AuditLogsPage.NoFiltersKeepAll | airflow-controller-ui-main/src/components/AuditLogs.tsx:97-119 | with no filters every row is shown |
| AuditLogsPage.PageOfRows | airflow-controller-ui-main/src/components/AuditLogs.tsx:168 | at most rows-per-page rows: the requested page of the filtered list |
| AuditLogsPage.OperationNames | airflow-controller-ui-main/src/components/AuditLogs.tsx:43-46 | one operation name per row |
| AuditLogsPage.DagIdsOf | airflow-controller-ui-main/src/components/AuditLogs.tsx:48-52 | one DAG id per row |
| AuditLogsPage.OperationTypes | airflow-controller-ui-main/src/components/AuditLogs.tsx:43-46 | the operation options are sorted, distinct, and exactly the operations present |
| AuditLogsPage.DagIdOptions | airflow-controller-ui-main/src/components/AuditLogs.tsx:48-52 | the DAG options are sorted, distinct, and exactly the DAG ids present |
| AuditLogsPage.OperationOptionSelects | airflow-controller-ui-main/src/components/AuditLogs.tsx:43-46 | every operation offered selects at least one row |
| AuditLogsPage.DagOptionSelects | airflow-controller-ui-main/src/components/AuditLogs.tsx:48-52 | every DAG offered selects at least one row |
| AuditLogsPage.AuditLogsView.constructor | airflow-controller-ui-main/src/components/AuditLogs.tsx:24-40 | no rows, no filters, page 0, 10 rows per page, loading |
| AuditLogsPage.AuditLogsView.Displayed | airflow-controller-ui-main/src/components/AuditLogs.tsx:168 | the displayed rows are at most one page, all of them loaded rows |
| AuditLogsPage.AuditLogsView.LoadLogs | airflow-controller-ui-main/src/components/AuditLogs.tsx:73-91 | loaded rows are kept newest first, as a permutation of the reply; a failure shows the load-failed text and keeps the rows |
| AuditLogsPage.AuditLogsView.HandleResetFilters | airflow-controller-ui-main/src/components/AuditLogs.tsx:131-136 | every filter is cleared and the page returns to 0 |
| AuditLogsPage.AuditLogsView.HandleOperationFilterChange | airflow-controller-ui-main/src/components/AuditLogs.tsx:139-142 | the operation filter changes and the page returns to 0 |
| AuditLogsPage.AuditLogsView.HandleDagIdFilterChange | airflow-controller-ui-main/src/components/AuditLogs.tsx:145-148 | the DAG filter changes and the page returns to 0 |
| AuditLogsPage.AuditLogsView.HandleSearchChange | airflow-controller-ui-main/src/components/AuditLogs.tsx:151-154 | the search text changes and the page returns to 0 |
| AuditLogsPage.AuditLogsView.HandleChangePage | airflow-controller-ui-main/src/components/AuditLogs.tsx:157-159 | only the page changes |
| AuditLogsPage.AuditLogsView.HandleChangeRowsPerPage | airflow-controller-ui-main/src/components/AuditLogs.tsx:162-165 | the rows per page change and the page returns to 0 |
| AuditLogsPage.FirstPageAfterFilterChange | airflow-controller-ui-main/src/components/AuditLogs.tsx:131-168 | after any filter change the first rows of the new selection are shown |
| DagAuditLogs.DagAuditLogsView.constructor | airflow-controller-ui-main/src/components/DagAuditLogs.tsx:26-34 | no rows, page 0, 10 rows per page, loading |
| DagAuditLogs.DagAuditLogsView.Displayed | airflow-controller-ui-main/src/components/DagAuditLogs.tsx:97 | the displayed rows are the current page of the sorted rows |
| DagAuditLogs.DagAuditLogsView.FetchLogs | airflow-controller-ui-main/src/components/DagAuditLogs.tsx:40-66 | a missing DAG id sets the error and fetches nothing; loaded rows are kept newest first as a permutation; a failure shows the load-failed text |
| DagAuditLogs.DagAuditLogsView.HandleChangePage | airflow-controller-ui-main/src/components/DagAuditLogs.tsx:81-83 | only the page changes |
| DagAuditLogs.DagAuditLogsView.HandleChangeRowsPerPage | airflow-controller-ui-main/src/components/DagAuditLogs.tsx:86-89 | the rows per page change and the page returns to 0 |
| DagAuditLogs.PagesListNewestFirst | airflow-controller-ui-main/src/components/DagAuditLogs.tsx:55-57 | paging through enough pages shows every row exactly once, newest first |
| DagsList.PausedParam | airflow-controller-ui-main/src/components/DagsList.tsx:69 | "all" sends no filter, "true" sends true, anything else false |
| DagsList.SearchParam | airflow-controller-ui-main/src/components/DagsList.tsx:70 | an empty search sends no filter, otherwise the text |
| DagsList.Request | airflow-controller-ui-main/src/components/DagsList.tsx:68-73 | the server page is the UI page minus one, with 10 DAGs per page |
| DagsList.TotalPages | airflow-controller-ui-main/src/components/DagsList.tsx:77-78 | the total pages just cover the total entries at 10 per page |
| DagsList.UiPagesMatchServerPages | airflow-controller-ui-main/src/components/DagsList.tsx:63-97 | for UI page p ≥ 1 whose offset `(p-1)*10` stays within the `int` range, the server returns DAGs exactly when p is within the computed total pages |
| DagsList.DagStatusChip | airflow-controller-ui-main/src/components/DagsList.tsx:161-168 | inactive shows "Inactive" whatever the paused flag; otherwise "Paused" when paused, else "Active" |
| DagsList.DagsListView.constructor | airflow-controller-ui-main/src/components/DagsList.tsx:47-60 | no DAGs, filter "all", empty search, page 1, an empty page response |
| DagsList.DagsListView.FetchDags | airflow-controller-ui-main/src/components/DagsList.tsx:63-97 | the request follows the current filters and page; a reply sets the DAGs and page info and resets the page to 1 when it is beyond a non-zero page count; an error keeps the rest |
| DagsList.DagsListView.HandleSearchChange | airflow-controller-ui-main/src/components/DagsList.tsx:100-103 | the search changes and the page returns to 1 |
| DagsList.DagsListView.HandlePausedChange | airflow-controller-ui-main/src/components/DagsList.tsx:105-108 | the paused filter changes and the page returns to 1 |
| DagsList.DagsListView.HandlePageChange | airflow-controller-ui-main/src/components/DagsList.tsx:110-112 | only the page changes |
| DagDetails.JsRem | airflow-controller-ui-main/src/components/DagDetails.tsx:93-94 | JavaScript `%`: the sign of the dividend, magnitude below the divisor |
| DagDetails.ClockSplit | airflow-controller-ui-main/src/components/DagDetails.tsx:92-94 | for a non-negative count, hours·3600 + minutes·60 + seconds is the count, with minutes and seconds below 60 |
| DagDetails.SecondsParts | airflow-controller-ui-main/src/components/DagDetails.tsx:91-101 | at most two parts: hours iff non-zero, minutes iff non-zero, seconds only when hours and minutes are both zero |
| DagDetails.Join | airflow-controller-ui-main/src/components/DagDetails.tsx:101 | no parts give empty text and one part gives that part |
| DagDetails.SecondsTextNonEmpty | airflow-controller-ui-main/src/components/DagDetails.tsx:91-101 | a non-zero duration never renders as empty text |
| DagDetails.OneHourOneMinuteOneSecond | airflow-controller-ui-main/src/components/DagDetails.tsx:91-101 | 3661 seconds render as "1 hour(s), 1 minute(s)": the seconds are dropped |
| DagDetails.DaysBeforeSeconds | airflow-controller-ui-main/src/components/DagDetails.tsx:86-88 | non-zero days render as "<days> day(s)" and the seconds are ignored |
| DagDetails.CronLabelled | airflow-controller-ui-main/src/components/DagDetails.tsx:77-83 | a cron interval renders as "Cron: <value>", or "Cron expression" without a value |
| DagDetails.SecondsDeltaShown | airflow-controller-ui-main/src/components/DagDetails.tsx:90-102 | a time delta with non-zero seconds and no days always renders some text |
| DagDetails.FormatScheduleInterval | airflow-controller-ui-main/src/components/DagDetails.tsx:73-115 | the text built by pushing parts is the schedule text |
| DagDetails.DagDetailsView.constructor | airflow-controller-ui-main/src/components/DagDetails.tsx:47-49 | no details and no error |
| DagDetails.DagDetailsView.HandleTogglePause | airflow-controller-ui-main/src/components/DagDetails.tsx:138-155 | without an id or details nothing happens; otherwise the request asks for the opposite state, and the local flag flips only after the call succeeds |

## Left out

- Network, scheduling and concurrency: WebClient and axios calls, URI building, Basic-auth headers, codec limits and timeouts are replaced by `Reply<T>` parameters. The concurrent `flatMap` of saves in `syncUsers` is processed one user at a time. The periodic and startup triggers of the synchronisation are not part of this model.
- Users listing from Keycloak (`getUsersFromKeycloak`, UserSyncService.java:114-128): the bearer header and URI are not modelled; the listing is a `Reply` of already-decoded users.
- A Keycloak error reply whose body cannot be read (the `onStatus` handler producing nothing) is not modelled; every error reply carries a body text.
- `KeycloakService.RequestToken`: a non-error status outside 2xx (1xx or 3xx) is not constrained, because `onStatus(HttpStatusCode::isError)` does not fire and the decoding of such a reply depends on the framework.
- `KeycloakService.StatusText`: only the reason phrases the error text can show are listed; any other status is rendered as its number.
- JSON decoding: `ClassCastException`s from wrongly typed JSON fields are not modelled. The exception is `createdTimestamp`, whose `toString`/`Long.valueOf` path is modelled. JSON `null` role claims are treated as absent.
- `UserSyncService.AdminToken`: a `null` `access_token` and a missing one are the same case.
- Case folding is ASCII only (`Text.Lower`). Java and JavaScript fold the whole of Unicode. String order in `Sorting.Less` is code-point order, which equals JavaScript's UTF-16 order only outside the surrogate range.
- Floating point: `Math.ceil((double) total / size)` in `PageResponse.of` and `Math.ceil(total / 10)` in the DAG list are integer ceilings; `Math.floor` of a division by a positive constant is integer division. Non-integer `seconds` or `days` in a schedule interval are not modelled.
- Clocks and dates: `LocalDateTime.now()`, `Date.now()`, `new Date(...)` and `toISOString` are parameters. The audit-log sort compares operation times given as integers, and the run-service payload receives the ISO text.
- `DagDetails.ScheduleText`: the text of `JSON.stringify` is a parameter, and the "Custom schedule" fallback is unreachable because stringifying a decoded object does not throw. The `microseconds` field of a time delta is not read by the source and is not modelled.
- `DagRunController`: the mutating endpoints only pass their arguments to the service, so they are not modelled apart from the service methods. The `DagRunStateUpdate` body is reduced to its nullable state string.
- The `HashMap` iteration order in `DagRunService.getDagRuns` is not fixed by Java. The model forwards entries in the order given, and the membership lemma is order-free.
- `DagRuns.DagRunsView.FetchDagRuns`: the state filter "all" cannot be chosen in the filter form, so it is sent as is like any other value.
- The UI's `parseInt` of the rows-per-page input is not modelled. Handlers receive the number.
- React rendering, hooks, `localStorage` access and navigation are not modelled. The stored authentication is a datatype holding the outcome of `JSON.parse`.
- The duration displays in the run and task tables use floating point and are not modelled.

## Findings

| source | as written | input that shows it | evidently intended | confidence | as-written member | corrected member |
|---|---|---|---|---|---|---|
| spring-airflow-controller-main/src/main/java/com/yigit/airflow_spring_rest_controller/controller/DagController.java:90-97 | the start index `page * size` is computed in 32-bit `int` and wraps around | five matching DAGs, `page = 429496730`, `size = 10`: the offset wraps to 4, so the fifth DAG is returned | a page far past the end is empty | high (not executed) | DagController.PageAsWritten, DagController.PageWrapsAround, DagController.GetDags, DagController.GetDagsWrapsAround | DagController.PageIntended, DagController.AgreesWhereNoOverflow |
| spring-airflow-controller-main/src/main/java/com/yigit/airflow_spring_rest_controller/service/synchronization/UserSyncService.java:170 | `userRepository.save(user)` on an entity whose `@Id` is already set is an UPDATE in Spring Data R2DBC | any Keycloak user whose id is not yet in the table: the update finds no row and fails, so no new user is ever stored | insert the new user and count it as new | medium (not executed) | UserSyncService.SaveUserAsWritten, UserSyncService.NewUserNeverStoredAsWritten, UserSyncService.SyncAsWrittenStoresNothing, UserSyncService.NewUserFailsSyncAsWritten, UserSyncService.SyncOfNewUser | UserSyncService.SaveUser, UserSyncService.NewUserStored, UserSyncService.SyncStoresAll |
| spring-airflow-controller-main/src/main/java/com/yigit/airflow_spring_rest_controller/exception/GlobalExceptionHandler.java:74-83 | the `ResponseStatusException` handler has no `@ResponseStatus`, so the reply is sent with HTTP 200 | a `ResponseStatusException` with status 400: the body says 400 but the HTTP status is 200 | the HTTP status equals the exception's status | medium (not executed) | GlobalExceptionHandler.HandleAsWritten, GlobalExceptionHandler.ResponseStatusAnsweredWithOk | GlobalExceptionHandler.Handle |
