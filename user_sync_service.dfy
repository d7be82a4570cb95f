/**
 * `UserSyncService`: copies the users Keycloak lists into the local
 * `users` table. Users whose id is already present are skipped and left
 * untouched; the first failure ends the run. A new user is written with
 * the repository's `save`, which the code calls, or with the insert its
 * comment describes (`NewUserWrite`): every property of a run is proved
 * for both, and as written no new user is ever stored.
 */
module UserSyncService {
  import opened Wrappers
  import opened JavaInt
  import opened Text
  import opened Exceptions
  import opened Upstream
  import opened Forms
  import opened UserEntity
  import opened UserRepository

  /** A JSON value as Jackson hands it over inside a `Map`. */
  datatype JsonValue = Absent | Number(n: int) | Text(s: string) | Flag(b: bool)

  /** One entry of the Keycloak admin `users` listing. */
  datatype KeycloakUser = KeycloakUser(
    id: Option<string>,
    createdTimestamp: JsonValue,
    username: Option<string>,
    enabled: Option<bool>,
    totp: Option<bool>,
    emailVerified: Option<bool>,
    firstName: Option<string>,
    lastName: Option<string>,
    email: Option<string>)

  // Admin token

  /** The form `getAdminToken` posts to the token endpoint. */
  function AdminTokenFields(adminUsername: string, adminPassword: string): seq<Field>
  {
    [("grant_type", "password"), ("client_id", "admin-cli"), ("username", adminUsername), ("password", adminPassword)]
  }

  /** Builds the admin token form one `add` at a time. */
  method AdminTokenForm(adminUsername: string, adminPassword: string) returns (form: FormData)
    ensures fresh(form)
    ensures form.entries == AdminTokenFields(adminUsername, adminPassword)
  {
    form := new FormData();
    form.Add("grant_type", "password");
    form.Add("client_id", "admin-cli");
    form.Add("username", adminUsername);
    form.Add("password", adminPassword);
  }

  /** Each of the four parameters is sent exactly once, with its own value, in a fixed order. */
  lemma AdminTokenFieldsSent(adminUsername: string, adminPassword: string)
    ensures Keys(AdminTokenFields(adminUsername, adminPassword)) == ["grant_type", "client_id", "username", "password"]
    ensures Values(AdminTokenFields(adminUsername, adminPassword), "grant_type") == ["password"]
    ensures Values(AdminTokenFields(adminUsername, adminPassword), "client_id") == ["admin-cli"]
    ensures Values(AdminTokenFields(adminUsername, adminPassword), "username") == [adminUsername]
    ensures Values(AdminTokenFields(adminUsername, adminPassword), "password") == [adminPassword]
  {
    var f := AdminTokenFields(adminUsername, adminPassword);
    SingleValue(f, 0);
    SingleValue(f, 1);
    SingleValue(f, 2);
    SingleValue(f, 3);
  }

  /** Reactor's error when a `map` function yields `null`. */
  const NULL_MAPPING := Runtime(NullPointer, None)

  /**
   * `getAdminToken`: the `access_token` of the reply; a failed reply is the
   * plain `WebClientResponseException` (no `onStatus` hooks), and a reply
   * without a token fails the mapping.
   */
  function AdminToken(reply: Reply<Option<string>>): (r: Result<string, AppException>)
    ensures r.Ok? <==> reply.Success? && reply.value.Some?
    ensures r.Ok? ==> r.value == reply.value.value
    ensures reply.HttpError? ==> r == Err(WebClientResponse(reply.status, reply.body))
    ensures reply == Success(None) ==> r == Err(NULL_MAPPING)
  {
    match Outcome(reply, None, None)
    case Err(e) => Err(e)
    case Ok(token) => if token.Some? then Ok(token.value) else Err(NULL_MAPPING)
  }

  // Mapping a Keycloak user

  /** `value.toString()`, or nothing when the value is absent. */
  function Rendered(v: JsonValue): Option<string>
  {
    match v
    case Absent => None
    case Number(n) => Some(ShowInt(n))
    case Text(s) => Some(s)
    case Flag(b) => Some(if b then "true" else "false")
  }

  function NumberFormatError(s: string): AppException
  {
    Runtime(NumberFormat, Some("For input string: \"" + s + "\""))
  }

  /** `Long.valueOf(userMap.get("createdTimestamp").toString())`. */
  function CreatedTimestamp(v: JsonValue): (r: Result<int, AppException>)
    ensures v.Absent? ==> r == Err(Runtime(NullPointer, None))
    ensures r.Ok? ==> LONG_MIN <= r.value <= LONG_MAX
  {
    match Rendered(v)
    case None => Err(Runtime(NullPointer, None))
    case Some(s) =>
      match ParseLong(s)
      case None => Err(NumberFormatError(s))
      case Some(n) => Ok(n)
  }

  /** A JSON number is read back as itself exactly when it fits in a `long`. */
  lemma NumberTimestamp(n: int)
    ensures LONG_MIN <= n <= LONG_MAX ==> CreatedTimestamp(Number(n)) == Ok(n)
    ensures !(LONG_MIN <= n <= LONG_MAX) ==> CreatedTimestamp(Number(n)) == Err(NumberFormatError(ShowInt(n)))
  {
    if n < 0 {
      DigitsValueOfShowNat(-n);
      assert ShowInt(n)[1..] == ShowNat(-n);
    } else {
      DigitsValueOfShowNat(n);
    }
  }

  /** A JSON boolean never parses as a timestamp. */
  lemma FlagTimestampFails(b: bool)
    ensures CreatedTimestamp(Flag(b)).Err?
  {
    ParseRejectsNonDigits(if b then "true" else "false", 1);
  }

  /** `mapToUser`: every field is copied; only the timestamp conversion can fail. */
  function MapToUser(raw: KeycloakUser): (r: Result<User, AppException>)
    ensures r.Ok? <==> CreatedTimestamp(raw.createdTimestamp).Ok?
    ensures r.Err? ==> r.error == CreatedTimestamp(raw.createdTimestamp).error
    ensures r.Ok? ==>
      r.value.id == raw.id && r.value.createdTimestamp == CreatedTimestamp(raw.createdTimestamp).value
      && r.value.username == raw.username && r.value.enabled == raw.enabled && r.value.totp == raw.totp
      && r.value.emailVerified == raw.emailVerified && r.value.firstName == raw.firstName
      && r.value.lastName == raw.lastName && r.value.email == raw.email
  {
    match CreatedTimestamp(raw.createdTimestamp)
    case Err(e) => Err(e)
    case Ok(t) => Ok(User(raw.id, t, raw.username, raw.enabled, raw.totp, raw.emailVerified,
                          raw.firstName, raw.lastName, raw.email))
  }

  // Saving one user

  /** `findById(null)` is rejected by the repository before any query. */
  const NULL_ID := Runtime(IllegalArgument, Some("Id must not be null"))

  /**
   * `saveUserToDatabase` as the method intends it: an existing id is
   * skipped and the table is left as it is; a new user is inserted. The
   * result carries the new rows and whether a row was added.
   */
  function SaveUser(rows: seq<User>, user: User, storage: StorageOutcome): (r: Result<(seq<User>, bool), AppException>)
    ensures user.id.None? ==> r == Err(NULL_ID)
    ensures user.id.Some? && ExistsById(rows, user.id.value) ==> r == Ok((rows, false))
    ensures user.id.Some? && !ExistsById(rows, user.id.value) ==>
      match InsertRows(rows, user, storage)
      case Ok(written) => r == Ok((written, true)) && written == rows + [user]
      case Err(e) => r == Err(e)
  {
    if user.id.None? then Err(NULL_ID)
    else if ExistsById(rows, user.id.value) then Ok((rows, false))
    else
      match InsertRows(rows, user, storage)
      case Ok(written) => Ok((written, true))
      case Err(e) => Err(e)
  }

  /**
   * `saveUserToDatabase` as written: a new user goes through the
   * repository's `save`, which for an entity whose id is set issues an
   * UPDATE of a row that does not exist.
   */
  function SaveUserAsWritten(rows: seq<User>, user: User, storage: StorageOutcome): (r: Result<(seq<User>, bool), AppException>)
    ensures user.id.None? ==> r == Err(NULL_ID)
    ensures user.id.Some? && ExistsById(rows, user.id.value) ==> r == Ok((rows, false))
    ensures r.Ok? ==> r.value == (rows, false)
  {
    if user.id.None? then Err(NULL_ID)
    else if ExistsById(rows, user.id.value) then Ok((rows, false))
    else
      match SaveRows(rows, user, storage)
      case Ok(written) => Ok((written, true))
      case Err(e) => Err(e)
  }

  /** As written, a user not yet in the table is never stored: the run fails on it instead. */
  lemma NewUserNeverStoredAsWritten(rows: seq<User>, user: User, storage: StorageOutcome)
    requires user.id.Some? && !ExistsById(rows, user.id.value)
    ensures SaveUserAsWritten(rows, user, storage) == Err(MissingRowError(user.id.value))
  {
  }

  /** With the insert, a new user is stored whenever the database accepts the write. */
  lemma NewUserStored(rows: seq<User>, user: User)
    requires user.id.Some? && !ExistsById(rows, user.id.value)
    ensures SaveUser(rows, user, Stored) == Ok((rows + [user], true))
  {
  }

  /**
   * The statement `saveUserToDatabase` issues for a user whose id is not in
   * the table: the repository's `save` the code calls (an UPDATE), or the
   * insert through the entity template that its comment describes.
   */
  datatype NewUserWrite = RepositorySave | TemplateInsert

  /** Saving one user; only the insert ever adds a row, and only for an id not yet present. */
  function SaveWith(write: NewUserWrite, rows: seq<User>, user: User, storage: StorageOutcome)
    : (r: Result<(seq<User>, bool), AppException>)
    ensures user.id.None? ==> r == Err(NULL_ID)
    ensures user.id.Some? && ExistsById(rows, user.id.value) ==> r == Ok((rows, false))
    ensures r.Ok? ==> user.id.Some? && r.value.0 == rows + (if r.value.1 then [user] else [])
    ensures r.Ok? && r.value.1 ==> write.TemplateInsert? && !ExistsById(rows, user.id.value)
    ensures r.Ok? && !r.value.1 ==> ExistsById(rows, user.id.value)
  {
    if write.RepositorySave? then SaveUserAsWritten(rows, user, storage) else SaveUser(rows, user, storage)
  }

  // The synchronisation run

  /** The table and the two counters as the run goes, and the error that ended it, if any. */
  datatype SyncState = SyncState(rows: seq<User>, inserted: nat, skipped: nat, failure: Option<AppException>)

  /** The write outcome of the `i`-th user (a write that is not listed commits). */
  function StorageAt(storage: seq<StorageOutcome>, i: nat): StorageOutcome
  {
    if i < |storage| then storage[i] else Stored
  }

  /** Processes one listed user; after a failure nothing more happens. */
  function SyncStep(write: NewUserWrite, st: SyncState, raw: KeycloakUser, storage: StorageOutcome): SyncState
  {
    if st.failure.Some? then st
    else
      match MapToUser(raw)
      case Err(e) => st.(failure := Some(e))
      case Ok(user) =>
        match SaveWith(write, st.rows, user, storage)
        case Err(e) => st.(failure := Some(e))
        case Ok((written, added)) =>
          if added then st.(rows := written, inserted := st.inserted + 1)
          else st.(skipped := st.skipped + 1)
  }

  /** The state after processing `raws` in order, starting from the table `rows0`. */
  function SyncRun(write: NewUserWrite, rows0: seq<User>, raws: seq<KeycloakUser>, storage: seq<StorageOutcome>): SyncState
    decreases |raws|
  {
    if raws == [] then SyncState(rows0, 0, 0, None)
    else SyncStep(write, SyncRun(write, rows0, raws[..|raws| - 1], storage), raws[|raws| - 1], StorageAt(storage, |raws| - 1))
  }

  /** What `syncUsers` answers: the number of users processed, or the first error. */
  function SyncOutcome(write: NewUserWrite, rows0: seq<User>, token: Reply<Option<string>>, listing: Reply<seq<KeycloakUser>>,
                       storage: seq<StorageOutcome>): (r: Result<int, AppException>)
    ensures AdminToken(token).Err? ==> r == Err(AdminToken(token).error)
    ensures AdminToken(token).Ok? && listing.HttpError? ==> r == Err(WebClientResponse(listing.status, listing.body))
  {
    if AdminToken(token).Err? then Err(AdminToken(token).error)
    else
      match Outcome(listing, None, None)
      case Err(e) => Err(e)
      case Ok(raws) =>
        var st := SyncRun(write, rows0, raws, storage);
        if st.failure.Some? then Err(st.failure.value) else Ok(|raws|)
  }

  /** The table after `syncUsers`: untouched unless both the token and the listing arrive. */
  function SyncedRows(write: NewUserWrite, rows0: seq<User>, token: Reply<Option<string>>, listing: Reply<seq<KeycloakUser>>,
                      storage: seq<StorageOutcome>): seq<User>
  {
    if AdminToken(token).Ok? && listing.Success? then SyncRun(write, rows0, listing.value, storage).rows else rows0
  }

  // Properties of a run

  /** Rows already in the table are never changed or removed; new rows are appended, one per insert. */
  lemma {:induction false} SyncAppendsOnly(write: NewUserWrite, rows0: seq<User>, raws: seq<KeycloakUser>, storage: seq<StorageOutcome>)
    ensures var st := SyncRun(write, rows0, raws, storage);
      |st.rows| == |rows0| + st.inserted && st.rows[..|rows0|] == rows0
    decreases |raws|
  {
    if raws != [] {
      SyncAppendsOnly(write, rows0, raws[..|raws| - 1], storage);
    }
  }

  /** Without a failure every listed user was either inserted or skipped. */
  lemma {:induction false} SyncCounts(write: NewUserWrite, rows0: seq<User>, raws: seq<KeycloakUser>, storage: seq<StorageOutcome>)
    ensures var st := SyncRun(write, rows0, raws, storage);
      st.failure.None? ==> st.inserted + st.skipped == |raws|
    decreases |raws|
  {
    if raws != [] {
      SyncCounts(write, rows0, raws[..|raws| - 1], storage);
    }
  }

  /** A run keeps the id a primary key. */
  lemma {:induction false} SyncKeepsKey(write: NewUserWrite, rows0: seq<User>, raws: seq<KeycloakUser>, storage: seq<StorageOutcome>)
    requires KeyedById(rows0)
    ensures KeyedById(SyncRun(write, rows0, raws, storage).rows)
    decreases |raws|
  {
    if raws != [] {
      var prev := SyncRun(write, rows0, raws[..|raws| - 1], storage);
      SyncKeepsKey(write, rows0, raws[..|raws| - 1], storage);
      var user := MapToUser(raws[|raws| - 1]);
      if prev.failure.None? && user.Ok? && user.value.id.Some? {
        InsertKeepsKey(prev.rows, user.value, StorageAt(storage, |raws| - 1));
      }
    }
  }

  /** A row of a table is still present in any table that extends it. */
  lemma ExistsInExtension(rows: seq<User>, more: seq<User>, id: string)
    requires ExistsById(rows, id)
    ensures ExistsById(rows + more, id)
  {
    var i :| 0 <= i < |rows| && rows[i].id == Some(id);
    assert (rows + more)[i] == rows[i];
  }

  /** A saved user's id is in the written table, which extends the table it was saved into. */
  lemma SavedUserPresent(write: NewUserWrite, rows: seq<User>, user: User, storage: StorageOutcome)
    requires SaveWith(write, rows, user, storage).Ok?
    ensures var written := SaveWith(write, rows, user, storage).value.0;
      user.id.Some? && ExistsById(written, user.id.value) && written == rows + written[|rows|..]
  {
    var written := SaveWith(write, rows, user, storage).value.0;
    if !ExistsById(rows, user.id.value) {
      assert written == rows + [user] && written[|rows|] == user;
    }
  }

  /** After a run without failure, every listed user maps and its id is in the table. */
  lemma {:induction false} SyncStoresAll(write: NewUserWrite, rows0: seq<User>, raws: seq<KeycloakUser>, storage: seq<StorageOutcome>, k: int)
    requires SyncRun(write, rows0, raws, storage).failure.None? && 0 <= k < |raws|
    ensures MapToUser(raws[k]).Ok? && MapToUser(raws[k]).value.id.Some?
    ensures ExistsById(SyncRun(write, rows0, raws, storage).rows, MapToUser(raws[k]).value.id.value)
    decreases |raws|
  {
    var init := raws[..|raws| - 1];
    var last := raws[|raws| - 1];
    var s := StorageAt(storage, |raws| - 1);
    var prev := SyncRun(write, rows0, init, storage);
    assert SyncRun(write, rows0, raws, storage) == SyncStep(write, prev, last, s);
    assert prev.failure.None?;
    var user := MapToUser(last).value;
    SavedUserPresent(write, prev.rows, user, s);
    StepSaved(write, prev, last, s, user);
    var written := SaveWith(write, prev.rows, user, s).value.0;
    if k < |raws| - 1 {
      SyncStoresAll(write, rows0, init, storage, k);
      assert init[k] == raws[k];
      ExistsInExtension(prev.rows, written[|prev.rows|..], MapToUser(raws[k]).value.id.value);
    }
  }

  /** A run over a table that already holds every listed user changes nothing and skips them all. */
  lemma {:induction false} SyncAllPresent(write: NewUserWrite, rows: seq<User>, raws: seq<KeycloakUser>, storage: seq<StorageOutcome>)
    requires forall k :: 0 <= k < |raws| ==>
      MapToUser(raws[k]).Ok? && MapToUser(raws[k]).value.id.Some? && ExistsById(rows, MapToUser(raws[k]).value.id.value)
    ensures SyncRun(write, rows, raws, storage) == SyncState(rows, 0, |raws|, None)
    decreases |raws|
  {
    if raws != [] {
      var init := raws[..|raws| - 1];
      assert forall k :: 0 <= k < |init| ==> init[k] == raws[k];
      SyncAllPresent(write, rows, init, storage);
    }
  }

  /** Synchronising twice with the same listing: the second run inserts nothing and skips every user. */
  lemma SyncIdempotent(write: NewUserWrite, rows0: seq<User>, raws: seq<KeycloakUser>, storage: seq<StorageOutcome>, again: seq<StorageOutcome>)
    requires SyncRun(write, rows0, raws, storage).failure.None?
    ensures var rows1 := SyncRun(write, rows0, raws, storage).rows;
      SyncRun(write, rows1, raws, again) == SyncState(rows1, 0, |raws|, None)
  {
    forall k | 0 <= k < |raws|
      ensures MapToUser(raws[k]).Ok? && MapToUser(raws[k]).value.id.Some?
      ensures ExistsById(SyncRun(write, rows0, raws, storage).rows, MapToUser(raws[k]).value.id.value)
    {
      SyncStoresAll(write, rows0, raws, storage, k);
    }
    SyncAllPresent(write, SyncRun(write, rows0, raws, storage).rows, raws, again);
  }

  /** As written, a run never adds a row: the table stays as it was and no user is counted as new. */
  lemma {:induction false} SyncAsWrittenStoresNothing(rows0: seq<User>, raws: seq<KeycloakUser>, storage: seq<StorageOutcome>)
    ensures SyncRun(RepositorySave, rows0, raws, storage).rows == rows0
    ensures SyncRun(RepositorySave, rows0, raws, storage).inserted == 0
    decreases |raws|
  {
    if raws != [] {
      SyncAsWrittenStoresNothing(rows0, raws[..|raws| - 1], storage);
    }
  }

  /** As written, a run listing a user that maps and is not yet in the table fails. */
  lemma NewUserFailsSyncAsWritten(rows0: seq<User>, raws: seq<KeycloakUser>, storage: seq<StorageOutcome>, k: int)
    requires 0 <= k < |raws| && MapToUser(raws[k]).Ok? && MapToUser(raws[k]).value.id.Some?
    requires !ExistsById(rows0, MapToUser(raws[k]).value.id.value)
    ensures SyncRun(RepositorySave, rows0, raws, storage).failure.Some?
  {
    SyncAsWrittenStoresNothing(rows0, raws, storage);
    if SyncRun(RepositorySave, rows0, raws, storage).failure.None? {
      SyncStoresAll(RepositorySave, rows0, raws, storage, k);
      assert false;
    }
  }

  /**
   * One new user that maps, with a database that accepts every write: as
   * written the run fails with the missing-row error and stores nothing;
   * with the insert the user is stored and counted as new.
   */
  lemma SyncOfNewUser(rows0: seq<User>, raw: KeycloakUser)
    requires MapToUser(raw).Ok? && MapToUser(raw).value.id.Some?
    requires !ExistsById(rows0, MapToUser(raw).value.id.value)
    ensures SyncRun(RepositorySave, rows0, [raw], [])
         == SyncState(rows0, 0, 0, Some(MissingRowError(MapToUser(raw).value.id.value)))
    ensures SyncRun(TemplateInsert, rows0, [raw], []) == SyncState(rows0 + [MapToUser(raw).value], 1, 0, None)
  {
    var user := MapToUser(raw).value;
    assert [raw][..0] == [];
    NewUserNeverStoredAsWritten(rows0, user, Stored);
    NewUserStored(rows0, user);
  }

  // The service

  /** An `AtomicInteger` counter. */
  class Counter {
    var value: int

    constructor (initial: int)
      ensures value == initial
    {
      value := initial;
    }

    method IncrementAndGet() returns (v: int)
      modifies this
      ensures value == old(value) + 1 && v == value
    {
      value := value + 1;
      v := value;
    }
  }

  /**
   * `saveUserToDatabase`: an existing id is counted as skipped; otherwise
   * the new user is written with `write` and counted as new once the write
   * succeeds.
   */
  method SaveUserToDatabase(write: NewUserWrite, table: UserTable, user: User, newUsers: Counter, skippedUsers: Counter,
                            storage: StorageOutcome) returns (r: Result<User, AppException>)
    requires table.Valid() && newUsers != skippedUsers
    modifies table, newUsers, skippedUsers
    ensures table.Valid()
    ensures SaveWith(write, old(table.rows), user, storage).Err? ==>
      r == Err(SaveWith(write, old(table.rows), user, storage).error) && table.rows == old(table.rows)
      && newUsers.value == old(newUsers.value) && skippedUsers.value == old(skippedUsers.value)
    ensures SaveWith(write, old(table.rows), user, storage).Ok? ==>
      var (written, added) := SaveWith(write, old(table.rows), user, storage).value;
      r == Ok(user) && table.rows == written
      && newUsers.value == old(newUsers.value) + (if added then 1 else 0)
      && skippedUsers.value == old(skippedUsers.value) + (if added then 0 else 1)
  {
    if user.id.None? {
      return Err(NULL_ID);
    }
    var existing := FindById(table.rows, user.id.value);
    if existing.Some? {
      var _ := skippedUsers.IncrementAndGet();
      return Ok(user);
    }
    if write.RepositorySave? {
      r := table.Save(user, storage);
    } else {
      r := table.Insert(user, storage);
    }
    if r.Ok? {
      var _ := newUsers.IncrementAndGet();
    }
  }

  /**
   * `syncUsers`: fetch the admin token, list the users, then map and save
   * them one after another; the answer is how many were processed.
   */
  method SyncUsers(write: NewUserWrite, table: UserTable, token: Reply<Option<string>>, listing: Reply<seq<KeycloakUser>>,
                   storage: seq<StorageOutcome>) returns (r: Result<int, AppException>)
    requires table.Valid()
    modifies table
    ensures table.Valid()
    ensures r == SyncOutcome(write, old(table.rows), token, listing, storage)
    ensures table.rows == SyncedRows(write, old(table.rows), token, listing, storage)
  {
    var adminToken := AdminToken(token);
    if adminToken.Err? {
      return Err(adminToken.error);
    }
    var users := Outcome(listing, None, None);
    if users.Err? {
      return Err(users.error);
    }
    var raws := users.value;
    RunOutcome(write, table.rows, token, listing, storage);
    var failure := SaveAll(write, table, raws, storage);
    r := if failure.Some? then Err(failure.value) else Ok(|raws|);
  }

  /**
   * The `flatMap` of `syncUsers`, taken one user at a time: map and save the listed
   * users in order, counting new and skipped ones, and stop at the first
   * error. The table afterwards and the error are those of `SyncRun`.
   */
  method SaveAll(write: NewUserWrite, table: UserTable, raws: seq<KeycloakUser>, storage: seq<StorageOutcome>)
    returns (failure: Option<AppException>)
    requires table.Valid()
    modifies table
    ensures table.Valid()
    ensures table.rows == SyncRun(write, old(table.rows), raws, storage).rows
    ensures failure == SyncRun(write, old(table.rows), raws, storage).failure
  {
    ghost var rows0 := table.rows;
    var newUsers := new Counter(0);
    var skippedUsers := new Counter(0);
    var i := 0;
    failure := None;
    while i < |raws| && failure.None?
      invariant 0 <= i <= |raws|
      invariant table.Valid() && newUsers.value >= 0 && skippedUsers.value >= 0
      invariant SyncRun(write, rows0, raws[..i], storage) == SyncState(table.rows, newUsers.value, skippedUsers.value, failure)
    {
      SyncRunExtend(write, rows0, raws, storage, i);
      failure := SyncOne(write, table, raws[i], newUsers, skippedUsers, StorageAt(storage, i));
      i := i + 1;
    }
    SyncRunStops(write, rows0, raws, storage, i);
  }

  /** One user of the `flatMap`: map the user and save it, moving the table and the counters as `SyncStep` does. */
  method SyncOne(write: NewUserWrite, table: UserTable, raw: KeycloakUser, newUsers: Counter, skippedUsers: Counter, storage: StorageOutcome)
    returns (failure: Option<AppException>)
    requires table.Valid() && newUsers != skippedUsers
    requires newUsers.value >= 0 && skippedUsers.value >= 0
    modifies table, newUsers, skippedUsers
    ensures table.Valid()
    ensures newUsers.value >= 0 && skippedUsers.value >= 0
    ensures SyncStep(write, SyncState(old(table.rows), old(newUsers.value), old(skippedUsers.value), None), raw, storage)
         == SyncState(table.rows, newUsers.value, skippedUsers.value, failure)
  {
    var user := MapToUser(raw);
    if user.Err? {
      return Some(user.error);
    }
    ghost var before := SyncState(table.rows, newUsers.value, skippedUsers.value, None);
    var saved := SaveUserToDatabase(write, table, user.value, newUsers, skippedUsers, storage);
    if saved.Err? {
      return Some(saved.error);
    }
    StepSaved(write, before, raw, storage, user.value);
    failure := None;
  }

  /** A run over one more user is one more step. */
  lemma SyncRunExtend(write: NewUserWrite, rows0: seq<User>, raws: seq<KeycloakUser>, storage: seq<StorageOutcome>, i: int)
    requires 0 <= i < |raws|
    ensures SyncRun(write, rows0, raws[..i + 1], storage)
         == SyncStep(write, SyncRun(write, rows0, raws[..i], storage), raws[i], StorageAt(storage, i))
  {
    assert raws[..i + 1][..i] == raws[..i];
  }

  /** A step whose user maps and saves adds the written rows and counts the user once, as new or as skipped. */
  lemma StepSaved(write: NewUserWrite, st: SyncState, raw: KeycloakUser, storage: StorageOutcome, user: User)
    requires st.failure.None? && MapToUser(raw) == Ok(user) && SaveWith(write, st.rows, user, storage).Ok?
    ensures var (written, added) := SaveWith(write, st.rows, user, storage).value;
      SyncStep(write, st, raw, storage)
        == SyncState(written, st.inserted + (if added then 1 else 0), st.skipped + (if added then 0 else 1), None)
  {
  }

  /** Once the token and the listing have arrived, the answer and the table are those of the run. */
  lemma RunOutcome(write: NewUserWrite, rows0: seq<User>, token: Reply<Option<string>>, listing: Reply<seq<KeycloakUser>>,
                   storage: seq<StorageOutcome>)
    requires AdminToken(token).Ok? && listing.Success?
    ensures var st := SyncRun(write, rows0, listing.value, storage);
      SyncOutcome(write, rows0, token, listing, storage) == (if st.failure.Some? then Err(st.failure.value) else Ok(|listing.value|))
      && SyncedRows(write, rows0, token, listing, storage) == st.rows
  {
  }

  /** A run that has reached the end of the list, or failed, is the whole run. */
  lemma SyncRunStops(write: NewUserWrite, rows0: seq<User>, raws: seq<KeycloakUser>, storage: seq<StorageOutcome>, i: int)
    requires 0 <= i <= |raws|
    requires i == |raws| || SyncRun(write, rows0, raws[..i], storage).failure.Some?
    ensures SyncRun(write, rows0, raws, storage) == SyncRun(write, rows0, raws[..i], storage)
  {
    if SyncRun(write, rows0, raws[..i], storage).failure.Some? {
      SyncFailureStays(write, rows0, raws, storage, i);
    } else {
      assert raws[..i] == raws;
    }
  }

  /** Once a run has failed, processing more users changes nothing. */
  lemma {:induction false} SyncFailureStays(write: NewUserWrite, rows0: seq<User>, raws: seq<KeycloakUser>, storage: seq<StorageOutcome>, n: int)
    requires 0 <= n <= |raws| && SyncRun(write, rows0, raws[..n], storage).failure.Some?
    ensures SyncRun(write, rows0, raws, storage) == SyncRun(write, rows0, raws[..n], storage)
    decreases |raws| - n
  {
    if n < |raws| {
      assert raws[..n + 1][..n] == raws[..n];
      SyncFailureStays(write, rows0, raws, storage, n + 1);
    } else {
      assert raws[..n] == raws;
    }
  }
}
