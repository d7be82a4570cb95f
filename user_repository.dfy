/**
 * The `users` table behind `UserRepository`: rows keyed by the Keycloak
 * id, the finders as selections in table order, and the two ways a row
 * can be written — an INSERT, and the inherited `save`, which for an
 * entity whose id is already set issues an UPDATE.
 */
module UserRepository {
  import opened Wrappers
  import opened Seqs
  import opened Exceptions
  import opened UserEntity

  /** The id is the primary key: every row has one and no two rows share it. */
  ghost predicate KeyedById(rows: seq<User>)
  {
    (forall i :: 0 <= i < |rows| ==> rows[i].id.Some?)
    && (forall i, j :: 0 <= i < j < |rows| ==> rows[i].id != rows[j].id)
  }

  /** `findById`: the row with that id, if any. */
  function FindById(rows: seq<User>, id: string): (r: Option<User>)
    ensures r.Some? <==> exists i :: 0 <= i < |rows| && rows[i].id == Some(id)
    ensures r.Some? ==> r.value in rows && r.value.id == Some(id)
  {
    if rows == [] then None
    else if rows[0].id == Some(id) then Some(rows[0])
    else
      var rest := FindById(rows[1..], id);
      assert forall i :: 1 <= i < |rows| ==> rows[i] == rows[1..][i - 1];
      rest
  }

  /** `existsById`. */
  predicate ExistsById(rows: seq<User>, id: string)
  {
    FindById(rows, id).Some?
  }

  /** In a keyed table the row found by id is the only row with that id. */
  lemma FindByIdUnique(rows: seq<User>, id: string, i: int)
    requires KeyedById(rows) && 0 <= i < |rows| && rows[i].id == Some(id)
    ensures FindById(rows, id) == Some(rows[i])
  {
    var u := FindById(rows, id).value;
    var j :| 0 <= j < |rows| && rows[j] == u;
    assert rows[j].id == rows[i].id;
  }

  const NON_UNIQUE_RESULT := Runtime(DataAccess, Some("Query returned non unique result"))

  /** A derived query returning `Mono`: no row, the one row, or an error when several match. */
  function FindOne(rows: seq<User>, p: User -> bool): (r: Result<Option<User>, AppException>)
    ensures r == Ok(None) <==> Count(p, rows) == 0
    ensures r.Ok? && r.value.Some? <==> Count(p, rows) == 1
    ensures r.Ok? && r.value.Some? ==> p(r.value.value) && r.value.value in rows
    ensures r.Err? <==> Count(p, rows) > 1
    ensures r == Ok(None) <==> forall i :: 0 <= i < |rows| ==> !p(rows[i])
  {
    var matches := Filter(p, rows);
    if |matches| == 0 then Ok(None)
    else if |matches| == 1 then
      assert matches[0] in rows && p(matches[0]);
      Ok(Some(matches[0]))
    else
      assert matches[0] in rows && p(matches[0]);
      Err(NON_UNIQUE_RESULT)
  }

  function ByUsername(username: string): User -> bool { (u: User) => u.username == Some(username) }
  function ByEmail(email: string): User -> bool { (u: User) => u.email == Some(email) }
  function ByFullName(firstName: string, lastName: string): User -> bool
  {
    (u: User) => u.firstName == Some(firstName) && u.lastName == Some(lastName)
  }
  function Enabled(): User -> bool { (u: User) => u.enabled == Some(true) }
  function CreatedAfter(timestamp: int): User -> bool { (u: User) => u.createdTimestamp > timestamp }

  function FindByUsername(rows: seq<User>, username: string): (r: Result<Option<User>, AppException>)
    ensures r.Ok? && r.value.Some? ==> r.value.value in rows && r.value.value.username == Some(username)
    ensures r == Ok(None) <==> forall i :: 0 <= i < |rows| ==> rows[i].username != Some(username)
  {
    FindOne(rows, ByUsername(username))
  }

  function FindByEmail(rows: seq<User>, email: string): (r: Result<Option<User>, AppException>)
    ensures r.Ok? && r.value.Some? ==> r.value.value in rows && r.value.value.email == Some(email)
    ensures r == Ok(None) <==> forall i :: 0 <= i < |rows| ==> rows[i].email != Some(email)
  {
    FindOne(rows, ByEmail(email))
  }

  function FindByFirstNameAndLastName(rows: seq<User>, firstName: string, lastName: string): (r: seq<User>)
    ensures Subsequence(r, rows)
    ensures forall i :: 0 <= i < |r| ==> r[i].firstName == Some(firstName) && r[i].lastName == Some(lastName)
    ensures forall i ::
              0 <= i < |rows| && rows[i].firstName == Some(firstName) && rows[i].lastName == Some(lastName) ==>
                rows[i] in r
  {
    FilterIsSubsequence(ByFullName(firstName, lastName), rows);
    Filter(ByFullName(firstName, lastName), rows)
  }

  function FindByEnabledTrue(rows: seq<User>): (r: seq<User>)
    ensures Subsequence(r, rows)
    ensures forall i :: 0 <= i < |r| ==> r[i].enabled == Some(true)
    ensures forall i :: 0 <= i < |rows| && rows[i].enabled == Some(true) ==> rows[i] in r
  {
    FilterIsSubsequence(Enabled(), rows);
    Filter(Enabled(), rows)
  }

  /** `created_timestamp > :timestamp`; a null bound compares as SQL NULL and selects nothing. */
  function FindUsersCreatedAfter(rows: seq<User>, timestamp: Option<int>): (r: seq<User>)
    ensures timestamp.None? ==> r == []
    ensures Subsequence(r, rows)
    ensures timestamp.Some? ==> forall i :: 0 <= i < |r| ==> r[i].createdTimestamp > timestamp.value
    ensures timestamp.Some? ==> forall i :: 0 <= i < |rows| && rows[i].createdTimestamp > timestamp.value ==> rows[i] in r
  {
    if timestamp.None? then
      assert Subsequence([], rows) by { FilterNoneSelected((u: User) => false, rows); FilterIsSubsequence((u: User) => false, rows); }
      []
    else
      FilterIsSubsequence(CreatedAfter(timestamp.value), rows);
      Filter(CreatedAfter(timestamp.value), rows)
  }

  const DUPLICATE_KEY := Runtime(DataAccess, Some("duplicate key value violates unique constraint"))

  /** The rows after an INSERT of `user`: rejected when the key is taken, appended otherwise. */
  function InsertRows(rows: seq<User>, user: User, storage: StorageOutcome): (r: Result<seq<User>, AppException>)
    requires user.id.Some?
    ensures ExistsById(rows, user.id.value) ==> r == Err(DUPLICATE_KEY)
    ensures !ExistsById(rows, user.id.value) && storage.Stored? ==> r == Ok(rows + [user])
    ensures !ExistsById(rows, user.id.value) && storage.StorageFailure? ==> r == Err(StorageError(storage.message))
  {
    if ExistsById(rows, user.id.value) then Err(DUPLICATE_KEY)
    else if storage.StorageFailure? then Err(StorageError(storage.message))
    else Ok(rows + [user])
  }

  /** An INSERT keeps the key property. */
  lemma InsertKeepsKey(rows: seq<User>, user: User, storage: StorageOutcome)
    requires KeyedById(rows) && user.id.Some?
    ensures InsertRows(rows, user, storage).Ok? ==> KeyedById(InsertRows(rows, user, storage).value)
  {
    if InsertRows(rows, user, storage).Ok? {
      var r := rows + [user];
      forall i, j | 0 <= i < j < |r| ensures r[i].id != r[j].id {
        if j == |rows| {
          assert r[i] == rows[i];
        }
      }
    }
  }

  /** The message of the UPDATE that finds no row. */
  function MissingRowError(id: string): AppException
  {
    Runtime(DataAccess, Some("Failed to update table [users]; Row with Id [" + id + "] does not exist"))
  }

  /** The index of the row with `id`, if any. */
  function IndexOfId(rows: seq<User>, id: string): (k: int)
    ensures -1 <= k < |rows|
    ensures k >= 0 ==> rows[k].id == Some(id)
    ensures k < 0 <==> !ExistsById(rows, id)
  {
    if rows == [] then -1
    else if rows[|rows| - 1].id == Some(id) then |rows| - 1
    else
      var k := IndexOfId(rows[..|rows| - 1], id);
      assert forall i :: 0 <= i < |rows| - 1 ==> rows[i] == rows[..|rows| - 1][i];
      k
  }

  /**
   * The inherited `save` for an entity whose `@Id` is already set and that
   * has no version: it is taken as existing and UPDATEd, which fails when
   * no row has that id.
   */
  function SaveRows(rows: seq<User>, user: User, storage: StorageOutcome): (r: Result<seq<User>, AppException>)
    requires user.id.Some?
    ensures !ExistsById(rows, user.id.value) ==> r == Err(MissingRowError(user.id.value))
    ensures ExistsById(rows, user.id.value) && storage.Stored? ==>
      r == Ok(rows[IndexOfId(rows, user.id.value) := user])
    ensures ExistsById(rows, user.id.value) && storage.StorageFailure? ==> r == Err(StorageError(storage.message))
  {
    var k := IndexOfId(rows, user.id.value);
    if k < 0 then Err(MissingRowError(user.id.value))
    else if storage.StorageFailure? then Err(StorageError(storage.message))
    else Ok(rows[k := user])
  }

  /** Replacing a row by a user with the same id keeps the id a key. */
  lemma SaveKeepsKey(rows: seq<User>, user: User, storage: StorageOutcome)
    requires KeyedById(rows) && user.id.Some?
    ensures SaveRows(rows, user, storage).Ok? ==> KeyedById(SaveRows(rows, user, storage).value)
  {
    var k := IndexOfId(rows, user.id.value);
    if k >= 0 {
      var r := rows[k := user];
      forall i, j | 0 <= i < j < |r| ensures r[i].id != r[j].id {
        assert r[i].id == rows[i].id && r[j].id == rows[j].id;
      }
    }
  }

  class UserTable {
    var rows: seq<User>

    ghost predicate Valid()
      reads this
    {
      KeyedById(rows)
    }

    constructor ()
      ensures Valid() && rows == []
    {
      rows := [];
    }

    /** An INSERT (what `R2dbcEntityTemplate.insert` issues). */
    method Insert(user: User, storage: StorageOutcome) returns (r: Result<User, AppException>)
      requires Valid() && user.id.Some?
      modifies this
      ensures Valid()
      ensures InsertRows(old(rows), user, storage).Ok? ==> r == Ok(user) && rows == InsertRows(old(rows), user, storage).value
      ensures InsertRows(old(rows), user, storage).Err? ==>
        r == Err(InsertRows(old(rows), user, storage).error) && rows == old(rows)
    {
      InsertKeepsKey(rows, user, storage);
      var written := InsertRows(rows, user, storage);
      if written.Ok? {
        rows := written.value;
        r := Ok(user);
      } else {
        r := Err(written.error);
      }
    }

    /** The inherited `save` of an entity whose id is set: an UPDATE of the row with that id. */
    method Save(user: User, storage: StorageOutcome) returns (r: Result<User, AppException>)
      requires Valid() && user.id.Some?
      modifies this
      ensures Valid()
      ensures SaveRows(old(rows), user, storage).Ok? ==> r == Ok(user) && rows == SaveRows(old(rows), user, storage).value
      ensures SaveRows(old(rows), user, storage).Err? ==>
        r == Err(SaveRows(old(rows), user, storage).error) && rows == old(rows)
    {
      SaveKeepsKey(rows, user, storage);
      var written := SaveRows(rows, user, storage);
      if written.Ok? {
        rows := written.value;
        r := Ok(user);
      } else {
        r := Err(written.error);
      }
    }
  }
}
