/**
 * The Postgres implementation of the persistence port (`impl ProvideData for
 * PgConnection` and `impl ProvideAuthn for PgConnection`, src/db/pg.rs) as a
 * class over the two tables it touches, `main.containers` and `main.users`.
 *
 * Each operation takes `fault`, the outcome of the round trip to the server that
 * this model does not see (a dropped connection, a protocol error, ...): when it
 * is `Some(e)` the statement fails with `e`, classified, and nothing changes.
 * The server's clock (`now()` behind the `DEFAULT` timestamps) and the generated
 * user id are parameters too.
 */
module PgStore {
  import opened Wrappers
  import opened Classifier
  import opened Entities

  /** Index of the first row satisfying `p`, the way a `WHERE` clause finds it. */
  function IndexWhere<T>(rows: seq<T>, p: T -> bool): (r: Option<nat>)
    ensures r.None? <==> forall i :: 0 <= i < |rows| ==> !p(rows[i])
    ensures r.Some? ==> r.value < |rows| && p(rows[r.value])
    ensures r.Some? ==> forall i :: 0 <= i < r.value ==> !p(rows[i])
  {
    if rows == [] then None
    else if p(rows[0]) then Some(0)
    else match IndexWhere(rows[1..], p)
      case None => None
      case Some(k) => Some(k + 1)
  }

  /** The DETAIL line Postgres attaches to a unique_violation. */
  function DuplicateKeyDetail(column: string, value: string): string {
    "Key (" + column + ")=(" + value + ") already exists."
  }

  /** The error report Postgres sends when an INSERT or UPDATE hits a unique index. */
  function DuplicateKey(constraint: string, column: string, value: string): SqlxError {
    Database(PgDatabaseError(PgError(
      Some(UniqueViolationCode),
      Some(DuplicateKeyDetail(column, value)),
      "duplicate key value violates unique constraint \"" + constraint + "\"")))
  }

  /** A duplicate key reaches the caller as a unique violation carrying the DETAIL line. */
  lemma DuplicateKeyIsUniqueViolation(constraint: string, column: string, value: string)
    ensures Classifiable(DuplicateKey(constraint, column, value))
    ensures FromSqlx(DuplicateKey(constraint, column, value))
            == UniqueViolation(DuplicateKeyDetail(column, value))
  {
  }

  ghost predicate ContainerKeysUnique(rows: seq<PgContainerEntity>) {
    forall i, j :: 0 <= i < j < |rows| ==> rows[i].id != rows[j].id && rows[i].name != rows[j].name
  }

  ghost predicate UserKeysUnique(rows: seq<PgUserEntity>) {
    forall i, j :: 0 <= i < j < |rows| ==>
      rows[i].id != rows[j].id && rows[i].username != rows[j].username && rows[i].email != rows[j].email
  }

  predicate ContainerIdTaken(rows: seq<PgContainerEntity>, id: string) {
    exists i :: 0 <= i < |rows| && rows[i].id == id
  }

  predicate ContainerNameTaken(rows: seq<PgContainerEntity>, name: string) {
    exists i :: 0 <= i < |rows| && rows[i].name == name
  }

  predicate UserIdTaken(rows: seq<PgUserEntity>, id: Uuid) {
    exists i :: 0 <= i < |rows| && rows[i].id == id
  }

  /** Some row other than the one with `id` already has this username. */
  predicate UsernameTakenByOther(rows: seq<PgUserEntity>, id: Uuid, username: string) {
    exists i :: 0 <= i < |rows| && rows[i].id != id && rows[i].username == username
  }

  predicate EmailTakenByOther(rows: seq<PgUserEntity>, id: Uuid, email: string) {
    exists i :: 0 <= i < |rows| && rows[i].id != id && rows[i].email == email
  }

  ghost predicate SortedByCreatedAt(s: seq<ContainerEntity>) {
    forall i, j :: 0 <= i < j < |s| ==> s[i].createdAt <= s[j].createdAt
  }

  /** Place `c` after every leading entity created no later than it: one step of `ORDER BY created_at`. */
  function InsertByCreatedAt(s: seq<ContainerEntity>, c: ContainerEntity): (r: seq<ContainerEntity>)
    ensures multiset(r) == multiset(s) + multiset{c}
    ensures |r| == |s| + 1
    ensures r[0] == if s != [] && s[0].createdAt <= c.createdAt then s[0] else c
  {
    if s == [] || c.createdAt < s[0].createdAt then [c] + s
    else
      var rest := InsertByCreatedAt(s[1..], c);
      assert s == [s[0]] + s[1..];
      [s[0]] + rest
  }

  /** Inserting into a sorted sequence keeps it sorted. */
  lemma {:induction false} InsertKeepsSorted(s: seq<ContainerEntity>, c: ContainerEntity)
    requires SortedByCreatedAt(s)
    ensures SortedByCreatedAt(InsertByCreatedAt(s, c))
  {
    if s != [] && s[0].createdAt <= c.createdAt {
      var rest := InsertByCreatedAt(s[1..], c);
      InsertKeepsSorted(s[1..], c);
      var r := InsertByCreatedAt(s, c);
      assert r == [s[0]] + rest;
      assert s[0].createdAt <= rest[0].createdAt by {
        if |s| > 1 { assert s[0].createdAt <= s[1].createdAt; }
      }
      forall i, j | 0 <= i < j < |r| ensures r[i].createdAt <= r[j].createdAt {
        assert r[j] == rest[j - 1];
        if i > 0 {
          assert r[i] == rest[i - 1];
        } else {
          assert rest[0].createdAt <= rest[j - 1].createdAt;
        }
      }
    }
  }

  /**
   * `SET email = $1, username = $2, password = $3, updated_at = DEFAULT`: the
   * row keeps its id, roles, active flag and creation time.
   */
  function ApplyUpdate(row: PgUserEntity, updated: UserEntity, now: Timestamp): (r: PgUserEntity)
    ensures r.email == updated.email && r.username == updated.username && r.password == updated.password
    ensures r.updatedAt == now
    ensures r.id == row.id && r.roles == row.roles && r.active == row.active && r.createdAt == row.createdAt
  {
    row.(email := updated.email, username := updated.username, password := updated.password, updatedAt := now)
  }

  /**
   * A connection to the database, seen through the rows of its two tables.
   * The uniqueness constraints (`id` and `name` of a container; `id`,
   * `username` and `email` of a user) and the column defaults of the users
   * table belong to the schema, which is not part of this model; they are
   * stated here as the invariant and as constructor parameters.
   */
  class Connection {
    var containers: seq<PgContainerEntity>
    var users: seq<PgUserEntity>
    /** The defaults of `main.users.roles` and `main.users.active`. */
    const defaultRoles: seq<string>
    const defaultActive: bool

    ghost predicate Valid()
      reads this
    {
      ContainerKeysUnique(containers) && UserKeysUnique(users)
    }

    constructor (defaultRoles: seq<string>, defaultActive: bool)
      ensures Valid()
      ensures containers == [] && users == []
      ensures this.defaultRoles == defaultRoles && this.defaultActive == defaultActive
    {
      containers := [];
      users := [];
      this.defaultRoles := defaultRoles;
      this.defaultActive := defaultActive;
    }

    /** `Connection::begin`: a transaction works on its own view of the committed tables. */
    method Begin(fault: Option<SqlxError>) returns (r: Result<Connection, SqlxError>)
      requires Valid()
      ensures fault.Some? ==> r == Failure(fault.value)
      ensures fault.None? ==> r.Success? && fresh(r.value) && r.value.Valid()
      ensures r.Success? ==> r.value.containers == containers && r.value.users == users
      ensures r.Success? ==> r.value.defaultRoles == defaultRoles && r.value.defaultActive == defaultActive
    {
      if fault.Some? {
        return Failure(fault.value);
      }
      var tx := new Connection(defaultRoles, defaultActive);
      tx.containers, tx.users := containers, users;
      r := Success(tx);
    }

    /** `Transaction::commit`: publish what the transaction wrote, or, on failure, leave the tables as they were. */
    method Commit(tx: Connection, fault: Option<SqlxError>) returns (r: Option<SqlxError>)
      requires Valid() && tx.Valid()
      modifies this
      ensures Valid()
      ensures r == fault
      ensures fault.Some? ==> containers == old(containers) && users == old(users)
      ensures fault.None? ==> containers == tx.containers && users == tx.users
    {
      if fault.Some? {
        return fault;
      }
      containers, users := tx.containers, tx.users;
      r := None;
    }

    /** `create_container`: `INSERT INTO main.containers ( id, name, image ) ... RETURNING *`. */
    method CreateContainer(id: string, name: string, image: string, now: Timestamp, fault: Option<SqlxError>)
      returns (r: Result<ContainerEntity, ProvideError>)
      requires Valid()
      requires fault.Some? ==> Classifiable(fault.value)
      modifies this
      ensures Valid()
      ensures users == old(users)
      ensures fault.Some? ==> r == Failure(FromSqlx(fault.value))
      ensures fault.None? && ContainerIdTaken(old(containers), id) ==>
                r == Failure(UniqueViolation(DuplicateKeyDetail("id", id)))
      ensures fault.None? && !ContainerIdTaken(old(containers), id) && ContainerNameTaken(old(containers), name) ==>
                r == Failure(UniqueViolation(DuplicateKeyDetail("name", name)))
      ensures fault.None? && !ContainerIdTaken(old(containers), id) && !ContainerNameTaken(old(containers), name) ==>
                r == Success(ContainerEntity(id, name, image, now, now))
      ensures r.Failure? ==> containers == old(containers)
      ensures r.Success? ==> containers == old(containers) + [ContainerRow(r.value)]
    {
      if fault.Some? {
        return Failure(FromSqlx(fault.value));
      }
      if IndexWhere(containers, (c: PgContainerEntity) => c.id == id).Some? {
        DuplicateKeyIsUniqueViolation("containers_pkey", "id", id);
        return Failure(FromSqlx(DuplicateKey("containers_pkey", "id", id)));
      }
      if IndexWhere(containers, (c: PgContainerEntity) => c.name == name).Some? {
        DuplicateKeyIsUniqueViolation("containers_name_key", "name", name);
        return Failure(FromSqlx(DuplicateKey("containers_name_key", "name", name)));
      }
      var row := PgContainerEntity(id, name, image, now, now);
      containers := containers + [row];
      r := Success(ContainerFromPg(row));
    }

    /** `get_all_containers`: `SELECT * FROM main.containers ORDER BY created_at`. */
    method GetAllContainers(fault: Option<SqlxError>) returns (r: Result<seq<ContainerEntity>, ProvideError>)
      requires fault.Some? ==> Classifiable(fault.value)
      ensures fault.Some? ==> r == Failure(FromSqlx(fault.value))
      ensures fault.None? ==> r.Success?
      ensures r.Success? ==> SortedByCreatedAt(r.value)
      ensures r.Success? ==> multiset(r.value) == multiset(ContainersFromPg(containers))
    {
      if fault.Some? {
        return Failure(FromSqlx(fault.value));
      }
      var sorted: seq<ContainerEntity> := [];
      var i := 0;
      while i < |containers|
        invariant 0 <= i <= |containers|
        invariant SortedByCreatedAt(sorted)
        invariant multiset(sorted) == multiset(ContainersFromPg(containers[..i]))
      {
        assert containers[..i + 1] == containers[..i] + [containers[i]];
        ContainersFromPgAppend(containers[..i], containers[i]);
        InsertKeepsSorted(sorted, ContainerFromPg(containers[i]));
        sorted := InsertByCreatedAt(sorted, ContainerFromPg(containers[i]));
        i := i + 1;
      }
      assert containers[..i] == containers;
      r := Success(sorted);
    }

    /** `get_container_by_name`: `SELECT * FROM main.containers WHERE name = $1`, at most one row. */
    method GetContainerByName(name: string, fault: Option<SqlxError>)
      returns (r: Result<Option<ContainerEntity>, ProvideError>)
      requires Valid()
      requires fault.Some? ==> Classifiable(fault.value)
      ensures fault.Some? ==> r == Failure(FromSqlx(fault.value))
      ensures fault.None? ==> r.Success?
      ensures r.Success? ==> (r.value.None? <==> !ContainerNameTaken(containers, name))
      ensures r.Success? ==> forall i :: 0 <= i < |containers| && containers[i].name == name ==>
                r.value == Some(ContainerFromPg(containers[i]))
    {
      if fault.Some? {
        return Failure(FromSqlx(fault.value));
      }
      match IndexWhere(containers, (c: PgContainerEntity) => c.name == name)
      case None =>
        r := Success(None);
      case Some(k) =>
        r := Success(Some(ContainerFromPg(containers[k])));
    }

    /**
     * `create_user`: `INSERT INTO main.users ( username, email, password ) ... RETURNING *`.
     * The id, roles, active flag and timestamps come from the column defaults;
     * `newId` is the id the server generates, fresh by assumption.
     */
    method CreateUser(username: string, email: string, password: string, newId: Uuid, now: Timestamp,
                      fault: Option<SqlxError>)
      returns (r: Result<UserEntity, ProvideError>)
      requires Valid()
      requires !UserIdTaken(users, newId)
      requires fault.Some? ==> Classifiable(fault.value)
      modifies this
      ensures Valid()
      ensures containers == old(containers)
      ensures fault.Some? ==> r == Failure(FromSqlx(fault.value))
      ensures fault.None? && UsernameTakenByOther(old(users), newId, username) ==>
                r == Failure(UniqueViolation(DuplicateKeyDetail("username", username)))
      ensures fault.None? && !UsernameTakenByOther(old(users), newId, username)
              && EmailTakenByOther(old(users), newId, email) ==>
                r == Failure(UniqueViolation(DuplicateKeyDetail("email", email)))
      ensures fault.None? && !UsernameTakenByOther(old(users), newId, username)
              && !EmailTakenByOther(old(users), newId, email) ==>
                r == Success(UserEntity(newId, username, email, password, defaultRoles, defaultActive, now, now))
      ensures r.Failure? ==> users == old(users)
      ensures r.Success? ==> users == old(users) + [UserRow(r.value)]
    {
      if fault.Some? {
        return Failure(FromSqlx(fault.value));
      }
      if IndexWhere(users, (u: PgUserEntity) => u.id != newId && u.username == username).Some? {
        DuplicateKeyIsUniqueViolation("users_username_key", "username", username);
        return Failure(FromSqlx(DuplicateKey("users_username_key", "username", username)));
      }
      if IndexWhere(users, (u: PgUserEntity) => u.id != newId && u.email == email).Some? {
        DuplicateKeyIsUniqueViolation("users_email_key", "email", email);
        return Failure(FromSqlx(DuplicateKey("users_email_key", "email", email)));
      }
      var row := PgUserEntity(newId, username, email, password, defaultRoles, defaultActive, now, now);
      users := users + [row];
      r := Success(UserFromPg(row));
    }

    /** `get_user_by_id`: `SELECT * FROM main.users WHERE id = $1`. */
    method GetUserById(id: Uuid, fault: Option<SqlxError>) returns (r: Result<Option<UserEntity>, ProvideError>)
      requires Valid()
      requires fault.Some? ==> Classifiable(fault.value)
      ensures fault.Some? ==> r == Failure(FromSqlx(fault.value))
      ensures fault.None? ==> r.Success?
      ensures r.Success? ==> (r.value.None? <==> !UserIdTaken(users, id))
      ensures r.Success? ==> forall i :: 0 <= i < |users| && users[i].id == id ==>
                r.value == Some(UserFromPg(users[i]))
    {
      if fault.Some? {
        return Failure(FromSqlx(fault.value));
      }
      match IndexWhere(users, (u: PgUserEntity) => u.id == id)
      case None =>
        r := Success(None);
      case Some(k) =>
        r := Success(Some(UserFromPg(users[k])));
    }

    /** `get_user_by_email`: `SELECT * FROM main.users WHERE email = $1`. */
    method GetUserByEmail(email: string, fault: Option<SqlxError>)
      returns (r: Result<Option<UserEntity>, ProvideError>)
      requires Valid()
      requires fault.Some? ==> Classifiable(fault.value)
      ensures fault.Some? ==> r == Failure(FromSqlx(fault.value))
      ensures fault.None? ==> r.Success?
      ensures r.Success? ==> (r.value.None? <==> forall i :: 0 <= i < |users| ==> users[i].email != email)
      ensures r.Success? ==> forall i :: 0 <= i < |users| && users[i].email == email ==>
                r.value == Some(UserFromPg(users[i]))
    {
      if fault.Some? {
        return Failure(FromSqlx(fault.value));
      }
      match IndexWhere(users, (u: PgUserEntity) => u.email == email)
      case None =>
        r := Success(None);
      case Some(k) =>
        r := Success(Some(UserFromPg(users[k])));
    }

    /**
     * `update_user`: `UPDATE main.users SET ... WHERE id = $4 RETURNING *`, read
     * with `fetch_one`, so an id that matches no row is `RowNotFound`, that is
     * `NotFound`.
     */
    method UpdateUser(updated: UserEntity, now: Timestamp, fault: Option<SqlxError>)
      returns (r: Result<UserEntity, ProvideError>)
      requires Valid()
      requires fault.Some? ==> Classifiable(fault.value)
      modifies this
      ensures Valid()
      ensures containers == old(containers)
      ensures fault.Some? ==> r == Failure(FromSqlx(fault.value))
      ensures fault.None? && !UserIdTaken(old(users), updated.id) ==> r == Failure(NotFound)
      ensures fault.None? && UserIdTaken(old(users), updated.id)
              && UsernameTakenByOther(old(users), updated.id, updated.username) ==>
                r == Failure(UniqueViolation(DuplicateKeyDetail("username", updated.username)))
      ensures fault.None? && UserIdTaken(old(users), updated.id)
              && !UsernameTakenByOther(old(users), updated.id, updated.username)
              && EmailTakenByOther(old(users), updated.id, updated.email) ==>
                r == Failure(UniqueViolation(DuplicateKeyDetail("email", updated.email)))
      ensures fault.None? && UserIdTaken(old(users), updated.id)
              && !UsernameTakenByOther(old(users), updated.id, updated.username)
              && !EmailTakenByOther(old(users), updated.id, updated.email)
              ==> r.Success?
      ensures r.Failure? ==> users == old(users)
      ensures r.Success? ==> |users| == |old(users)|
      ensures r.Success? ==> forall i :: 0 <= i < |users| ==>
                users[i] == if old(users)[i].id == updated.id then ApplyUpdate(old(users)[i], updated, now)
                            else old(users)[i]
      ensures r.Success? ==> forall i :: 0 <= i < |old(users)| && old(users)[i].id == updated.id ==>
                r.value == UserFromPg(ApplyUpdate(old(users)[i], updated, now))
    {
      if fault.Some? {
        return Failure(FromSqlx(fault.value));
      }
      var found := IndexWhere(users, (u: PgUserEntity) => u.id == updated.id);
      if found.None? {
        return Failure(FromSqlx(RowNotFound));
      }
      var k := found.value;
      if IndexWhere(users, (u: PgUserEntity) => u.id != updated.id && u.username == updated.username).Some? {
        DuplicateKeyIsUniqueViolation("users_username_key", "username", updated.username);
        return Failure(FromSqlx(DuplicateKey("users_username_key", "username", updated.username)));
      }
      if IndexWhere(users, (u: PgUserEntity) => u.id != updated.id && u.email == updated.email).Some? {
        DuplicateKeyIsUniqueViolation("users_email_key", "email", updated.email);
        return Failure(FromSqlx(DuplicateKey("users_email_key", "email", updated.email)));
      }
      var row := ApplyUpdate(users[k], updated, now);
      users := users[k := row];
      r := Success(UserFromPg(row));
    }
  }

  /** The rows as `model::ContainerEntity` values, in table order. */
  function ContainersFromPg(rows: seq<PgContainerEntity>): (r: seq<ContainerEntity>)
    ensures |r| == |rows|
    ensures forall i :: 0 <= i < |rows| ==> r[i] == ContainerFromPg(rows[i])
  {
    seq(|rows|, i requires 0 <= i < |rows| => ContainerFromPg(rows[i]))
  }

  lemma ContainersFromPgAppend(rows: seq<PgContainerEntity>, row: PgContainerEntity)
    ensures ContainersFromPg(rows + [row]) == ContainersFromPg(rows) + [ContainerFromPg(row)]
  {
  }
}
