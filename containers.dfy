/**
 * The container workflows behind the GraphQL API (src/api/containers.rs): the
 * response bodies and the two begin -> operate -> commit sequences, each of
 * which stops at the first failing step.
 */
module ContainersApi {
  import opened Wrappers
  import opened Classifier
  import opened Entities
  import opened PgStore
  import opened ApiModel
  import opened AppErrors

  newtype i32 = x: int | -0x8000_0000 <= x < 0x8000_0000

  const I32Max: int := 0x7fff_ffff

  /** A single container, optional because a lookup may match nothing. */
  datatype SingleContainerResponseBody = SingleContainerResponseBody(container: Option<Container>)

  datatype MultiContainersResponseBody = MultiContainersResponseBody(containers: seq<Container>, containersCount: i32)

  /** The GraphQL input for creating a container. */
  datatype ContainerRequestBody = ContainerRequestBody(name: string, image: string)

  /** `From<Container> for SingleContainerResponseBody`. */
  function SingleFrom(c: Container): (b: SingleContainerResponseBody)
    ensures b.container == Some(c)
  {
    SingleContainerResponseBody(Some(c))
  }

  /**
   * `From<Vec<Container>> for MultiContainersResponseBody`. The count is
   * `i32::try_from(len).unwrap()`, which panics past `i32::MAX` entries.
   */
  function MultiFrom(cs: seq<Container>): (b: MultiContainersResponseBody)
    requires |cs| <= I32Max
    ensures b.containers == cs
    ensures b.containersCount as int == |cs|
  {
    MultiContainersResponseBody(cs, |cs| as i32)
  }

  /** The round trips a workflow makes to the database, in the order it makes them. */
  datatype Step = BeginTx | SelectAll | InsertContainer | CommitTx

  /**
   * The outcome of each round trip that this model does not see: opening the
   * transaction, running its one statement, committing it.
   */
  datatype TxFaults = TxFaults(begin: Option<SqlxError>, statement: Option<SqlxError>, commit: Option<SqlxError>)

  /** `list_containers`: every stored container, ordered by creation time, with their count. */
  method ListContainers(db: Connection, faults: TxFaults)
    returns (r: Result<MultiContainersResponseBody, Error>, steps: seq<Step>)
    requires db.Valid()
    requires faults.statement.Some? ==> Classifiable(faults.statement.value)
    requires faults.begin.None? && faults.statement.None? && faults.commit.None? ==> |db.containers| <= I32Max
    modifies db
    ensures db.Valid()
    ensures db.containers == old(db.containers) && db.users == old(db.users)
    ensures faults.begin.Some? ==>
              steps == [BeginTx] && r == Failure(DBError("could not initiate transaction", faults.begin.value))
    ensures faults.begin.None? && faults.statement.Some? ==>
              steps == [BeginTx, SelectAll] &&
              r == Failure(DBProvideError("Could not get all them containers", FromSqlx(faults.statement.value)))
    ensures faults.begin.None? && faults.statement.None? && faults.commit.Some? ==>
              steps == [BeginTx, SelectAll, CommitTx] &&
              r == Failure(DBError("could not commit transaction", faults.commit.value))
    ensures faults.begin.None? && faults.statement.None? && faults.commit.None? ==>
              steps == [BeginTx, SelectAll, CommitTx] && r.Success?
    ensures r.Success? ==> r.value.containersCount as int == |r.value.containers| == |db.containers|
    ensures r.Success? ==> exists es :: SortedByCreatedAt(es) && multiset(es) == multiset(ContainersFromPg(db.containers))
                                        && r.value.containers == FromEntities(es)
  {
    var began := db.Begin(faults.begin);
    if began.Failure? {
      return Failure(DBError("could not initiate transaction", began.error)), [BeginTx];
    }
    var tx := began.value;
    var entities := tx.GetAllContainers(faults.statement);
    if entities.Failure? {
      return Failure(DBProvideError("Could not get all them containers", entities.error)), [BeginTx, SelectAll];
    }
    var es := entities.value;
    assert |multiset(es)| == |multiset(ContainersFromPg(tx.containers))|;
    var containers := FromEntities(es);
    var committed := db.Commit(tx, faults.commit);
    if committed.Some? {
      return Failure(DBError("could not commit transaction", committed.value)), [BeginTx, SelectAll, CommitTx];
    }
    r, steps := Success(MultiFrom(containers)), [BeginTx, SelectAll, CommitTx];
  }

  /**
   * `create_container`: insert the requested container and answer it. The call
   * at src/api/containers.rs:114 passes only the name and the image to a port
   * operation that also takes the container's id; here the id is a parameter.
   */
  method CreateContainer(db: Connection, request: ContainerRequestBody, id: string, now: Timestamp, faults: TxFaults)
    returns (r: Result<SingleContainerResponseBody, Error>, steps: seq<Step>)
    requires db.Valid()
    requires faults.statement.Some? ==> Classifiable(faults.statement.value)
    modifies db
    ensures db.Valid()
    ensures db.users == old(db.users)
    ensures faults.begin.Some? ==>
              steps == [BeginTx] && r == Failure(DBError("could not initiate transaction", faults.begin.value))
    ensures faults.begin.None? && faults.statement.Some? ==>
              steps == [BeginTx, InsertContainer] &&
              r == Failure(DBProvideError("Could not create container", FromSqlx(faults.statement.value)))
    ensures faults.begin.None? && faults.statement.None? && ContainerIdTaken(old(db.containers), id) ==>
              steps == [BeginTx, InsertContainer] &&
              r == Failure(DBProvideError("Could not create container", UniqueViolation(DuplicateKeyDetail("id", id))))
    ensures faults.begin.None? && faults.statement.None? && !ContainerIdTaken(old(db.containers), id)
            && ContainerNameTaken(old(db.containers), request.name) ==>
              steps == [BeginTx, InsertContainer] &&
              r == Failure(DBProvideError("Could not create container",
                                          UniqueViolation(DuplicateKeyDetail("name", request.name))))
    ensures faults.begin.None? && faults.statement.None? && !ContainerIdTaken(old(db.containers), id)
            && !ContainerNameTaken(old(db.containers), request.name) ==>
              steps == [BeginTx, InsertContainer, CommitTx] &&
              r == (if faults.commit.Some?
                    then Failure(DBError("could not commit container creation transaction", faults.commit.value))
                    else Success(SingleFrom(Container(id, request.name, request.image, now, now))))
    ensures r.Failure? ==> db.containers == old(db.containers)
    ensures r.Success? ==> db.containers == old(db.containers) + [PgContainerEntity(id, request.name, request.image, now, now)]
  {
    var name, image := request.name, request.image;
    var began := db.Begin(faults.begin);
    if began.Failure? {
      return Failure(DBError("could not initiate transaction", began.error)), [BeginTx];
    }
    var tx := began.value;
    var entity := tx.CreateContainer(id, name, image, now, faults.statement);
    if entity.Failure? {
      return Failure(DBProvideError("Could not create container", entity.error)), [BeginTx, InsertContainer];
    }
    var container := FromEntity(entity.value);
    var committed := db.Commit(tx, faults.commit);
    if committed.Some? {
      return Failure(DBError("could not commit container creation transaction", committed.value)),
             [BeginTx, InsertContainer, CommitTx];
    }
    r, steps := Success(SingleFrom(container)), [BeginTx, InsertContainer, CommitTx];
  }

  const NoFaults := TxFaults(None, None, None)

  /**
   * A container created without faults is then found by name with the
   * requested name and image and the given id; a second create under the same
   * name fails with a unique violation and stores nothing.
   */
  method CreateThenFind(db: Connection, request: ContainerRequestBody, id: string, otherId: string, now: Timestamp)
    returns (found: Result<Option<ContainerEntity>, ProvideError>, again: Result<SingleContainerResponseBody, Error>)
    requires db.Valid()
    requires !ContainerIdTaken(db.containers, id) && !ContainerNameTaken(db.containers, request.name)
    requires otherId != id && !ContainerIdTaken(db.containers, otherId)
    modifies db
    ensures found == Success(Some(ContainerEntity(id, request.name, request.image, now, now)))
    ensures again == Failure(DBProvideError("Could not create container",
                                            UniqueViolation(DuplicateKeyDetail("name", request.name))))
    ensures db.containers == old(db.containers) + [PgContainerEntity(id, request.name, request.image, now, now)]
  {
    var created, steps := CreateContainer(db, request, id, now, NoFaults);
    var n := |db.containers| - 1;
    assert db.containers[n].name == request.name;
    found := db.GetContainerByName(request.name, None);
    assert ContainerNameTaken(db.containers, request.name);
    assert !ContainerIdTaken(db.containers, otherId) by {
      assert db.containers[n].id != otherId;
    }
    again, steps := CreateContainer(db, request, otherId, now, NoFaults);
  }
}
