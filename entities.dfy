/**
 * The persisted entities (src/db/model.rs) and their Postgres row twins with the
 * conversions between them (src/db/pg.rs).
 */
module Entities {

  /** `DateTime<Utc>`, kept as an opaque point on an ordered time line. */
  type Timestamp = int

  /** `Uuid`, a 128-bit identifier. */
  newtype Uuid = x: int | 0 <= x < 0x1_0000_0000_0000_0000_0000_0000_0000_0000

  /** `model::ContainerEntity`: one row of the containers table as the rest of the program sees it. */
  datatype ContainerEntity = ContainerEntity(
    id: string,
    name: string,
    image: string,
    createdAt: Timestamp,
    updatedAt: Timestamp)

  /** `model::UserEntity`: one row of the users table. */
  datatype UserEntity = UserEntity(
    id: Uuid,
    username: string,
    email: string,
    password: string,
    roles: seq<string>,
    active: bool,
    createdAt: Timestamp,
    updatedAt: Timestamp)

  /** `pg::ContainerEntity`: the same row as decoded from a Postgres result. */
  datatype PgContainerEntity = PgContainerEntity(
    id: string,
    name: string,
    image: string,
    createdAt: Timestamp,
    updatedAt: Timestamp)

  /** `pg::UserEntity`. */
  datatype PgUserEntity = PgUserEntity(
    id: Uuid,
    username: string,
    email: string,
    password: string,
    roles: seq<string>,
    active: bool,
    createdAt: Timestamp,
    updatedAt: Timestamp)

  /** `From<pg::ContainerEntity> for model::ContainerEntity`. */
  function ContainerFromPg(pg: PgContainerEntity): (c: ContainerEntity)
    ensures c.id == pg.id && c.name == pg.name && c.image == pg.image
    ensures c.createdAt == pg.createdAt && c.updatedAt == pg.updatedAt
  {
    ContainerEntity(pg.id, pg.name, pg.image, pg.createdAt, pg.updatedAt)
  }

  /** `From<pg::UserEntity> for model::UserEntity`. */
  function UserFromPg(pg: PgUserEntity): (u: UserEntity)
    ensures u.id == pg.id && u.username == pg.username && u.email == pg.email
    ensures u.password == pg.password && u.roles == pg.roles && u.active == pg.active
    ensures u.createdAt == pg.createdAt && u.updatedAt == pg.updatedAt
  {
    UserEntity(pg.id, pg.username, pg.email, pg.password, pg.roles, pg.active, pg.createdAt, pg.updatedAt)
  }

  /** Reading a stored container row back from Postgres: the row decoded as `pg::ContainerEntity`. */
  function ContainerRow(c: ContainerEntity): PgContainerEntity {
    PgContainerEntity(c.id, c.name, c.image, c.createdAt, c.updatedAt)
  }

  /** Reading a stored user row back from Postgres. */
  function UserRow(u: UserEntity): PgUserEntity {
    PgUserEntity(u.id, u.username, u.email, u.password, u.roles, u.active, u.createdAt, u.updatedAt)
  }

  /** No field is lost on the way from Postgres: row -> entity -> row is the identity, both ways round. */
  lemma ContainerConversionLossless(pg: PgContainerEntity, c: ContainerEntity)
    ensures ContainerRow(ContainerFromPg(pg)) == pg
    ensures ContainerFromPg(ContainerRow(c)) == c
  {
  }

  lemma UserConversionLossless(pg: PgUserEntity, u: UserEntity)
    ensures UserRow(UserFromPg(pg)) == pg
    ensures UserFromPg(UserRow(u)) == u
  {
  }
}
