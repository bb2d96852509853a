# Container persistence port — a Dafny model

This project models the persistence core of a small container-provisioning
service written in Rust:

- **Error classifier.** This maps backend failures (`sqlx::Error`, with the
  Postgres report inside it) onto the provider taxonomy `NotFound |
  UniqueViolation | ModelViolation | UnHandledError`. The classes are
  SQLSTATE 23505 (unique_violation) and the rest of class 23 (integrity
  constraint violation) from the PostgreSQL error-code appendix.
- **Store port.** The `ProvideData` / `ProvideAuthn` operations as
  implemented on a Postgres connection. They are a class `Connection` over
  the rows of the `main.containers` and `main.users` tables, with
  transaction begin and commit.
- **Container workflows.** `list_containers` and `create_container` run
  begin → one statement → commit and stop at the first failure. The
  response bodies and the entity → API conversion belong to this layer.
- **Client reply decoding.** The GraphQL reply is read into a response
  body or one of the client's error messages. A small `serde_json::Value`
  model is used for this, including the compact text that `Display`
  writes.

Modules follow the source files. `Classifier` covers src/db/model.rs's
error conversion and src/db/pg.rs's `try_from`. `Entities` covers the
entities of src/db/model.rs and the conversions of src/db/pg.rs. `PgStore`
is the rest of src/db/pg.rs. `ApiModel` is src/api/model.rs.
`ContainersApi` is src/api/containers.rs. `Json` and `Client` are
src/api/client.rs. `AppErrors` stands for `crate::error::Error`, whose
file is not part of this model. `Wrappers` holds Option and Result.

Modelling choices:
- Panics (`unwrap`, `expect`, `i32::try_from(..).unwrap()`) become `requires` clauses.
- A failed round trip to the database is a `fault: Option<SqlxError>`
  parameter. This covers a dropped connection or a protocol error.
- The server clock behind `DEFAULT now()` is a `now` parameter.
- The id the server generates for a new user is a `newId` parameter.
- Timestamps are opaque ordered integers.
- A transaction is a fresh `Connection` holding a copy of the committed
  tables. Commit publishes that copy; dropping it leaves the database
  unchanged.
- The database schema (`db/init.sql`, named in the comment at
  src/db/pg.rs:324) is not part of this model. So the uniqueness constraints are stated in `Connection.Valid()`:
  a container's `id` and `name`, and a user's `id`, `username` and
  `email`. The constraint names, the DETAIL line format and the column
  defaults of `users.roles` / `users.active` are stated too.
- Apart from the connection and version check in `State::new`
  (src/state/mod.rs:53-59), src/ makes no container-engine calls: no image
  pull, no container create or start, and no listing that reconciles with
  the engine. The create workflow only inserts a record and the list
  workflow returns the stored records.
- The call at src/api/containers.rs:113-118 passes two arguments,
  `(name, image)`, to a three-argument trait method `create_container(id,
  name, image)` (src/db/model.rs:20-25), so it does not type-check. In the
  model the workflow receives the id as a parameter.

## Model

| member | source | states |
|---|---|---|
| Classifier.TryFromPg | src/db/pg.rs:66-87 | Accepts exactly the codes of class 23. 23505 yields `UniqueViolation` with the DETAIL line. Every other class-23 code yields `ModelViolation` with the primary message. A code outside class 23 is bounced back as `Err(())`. Requires a code, and DETAIL for 23505 (the two `unwrap`s). |
| Classifier.FromSqlx | src/db/model.rs:98-125 | `NotFound` iff the error is `RowNotFound`. An `UnHandledError` always wraps the original error unchanged. A non-Postgres database error and every other sqlx error are unhandled. A Postgres error gets the pg classification when it accepts and is unhandled when it bounces. |
| Classifier.FromSqlxIsTheClassification | src/db/model.rs:104-124 | The taxonomy as a first-match-free relation (no row / 23505 / other class 23 / anything else). Each error has exactly one classification, the one `FromSqlx` returns (both directions). |
| Classifier.UniqueCodeTakesPrecedence | src/db/pg.rs:75-81 | 23505 lies in class 23, yet it becomes `UniqueViolation(details)`, never `ModelViolation`. |
| Classifier.IntegrityCodes | src/db/pg.rs:75-82 | 23000, 23001, 23502, 23503, 23514 and 23P01 become `ModelViolation(message)`. 40001 is unhandled and wraps the error. |
| Entities.ContainerFromPg | src/db/pg.rs:40-58 | The Postgres container row becomes the model entity with id, name, image and both timestamps equal. |
| Entities.UserFromPg | src/db/pg.rs:193-217 | The Postgres user row becomes the model entity with all eight fields equal. |
| Entities.ContainerConversionLossless | src/db/pg.rs:40-58 | Row → entity → row and entity → row → entity are identities, so no field is lost. |
| Entities.UserConversionLossless | src/db/pg.rs:193-217 | The same round trip for users. |
| PgStore.DuplicateKeyIsUniqueViolation | src/db/pg.rs:75-78 | The report Postgres sends for a duplicate key reaches callers as `UniqueViolation` carrying its DETAIL line. |
| PgStore.InsertByCreatedAt | src/db/pg.rs:122-139 | One insertion step of `ORDER BY created_at`. The result has the input's elements plus the new one, as a multiset. |
| PgStore.InsertKeepsSorted | src/db/pg.rs:122-139 | Inserting into a sequence sorted by `created_at` keeps it sorted. |
| PgStore.ApplyUpdate | src/db/pg.rs:291-311 | The UPDATE sets email, username, password and `updated_at = now`. id, roles, active and created_at keep their old values. |
| PgStore.ContainersFromPg | src/db/pg.rs:133-136 | The `map(model::ContainerEntity::from)` over the rows keeps one entity per row, in order. |
| PgStore.Connection.Begin | src/api/containers.rs:66-72 | A failed begin returns its error. Otherwise the transaction is a fresh connection that sees exactly the committed tables. |
| PgStore.Connection.Commit | src/api/containers.rs:86-88 | A failed commit returns its error and leaves the tables unchanged. Otherwise the transaction's tables become the committed ones. |
| PgStore.Connection.CreateContainer | src/db/pg.rs:100-120 | On a fault: the classified fault, nothing stored. On a taken id or name: `UniqueViolation` with the DETAIL line for that key, nothing stored. Otherwise it appends exactly one row with the given id, name and image and both timestamps `now`, and returns it. Users are untouched, and key uniqueness is kept. |
| PgStore.Connection.GetAllContainers | src/db/pg.rs:122-139 | Without a fault it always succeeds, an empty table included. The result is sorted by `created_at` and is a permutation of the stored containers. A fault gives the classified error. It changes nothing. |
| PgStore.Connection.GetContainerByName | src/db/pg.rs:141-163 | `None` iff no row has the name. Otherwise it returns the row with that name. It changes nothing. |
| PgStore.Connection.CreateUser | src/db/pg.rs:221-241 | A taken username or email gives `UniqueViolation`, with username checked first. Otherwise it appends one user with the given username, email and password, the generated id, the column defaults and `now`. A failure leaves both tables unchanged. |
| PgStore.Connection.GetUserById | src/db/pg.rs:243-265 | `None` iff no user has the id. Otherwise it returns that user. It changes nothing. |
| PgStore.Connection.GetUserByEmail | src/db/pg.rs:267-289 | `None` iff no user has the email. Otherwise it returns a user with that email. It changes nothing. |
| PgStore.Connection.UpdateUser | src/db/pg.rs:291-311 | No row with the id gives `NotFound` (`fetch_one` → `RowNotFound`). A username or email held by another user gives `UniqueViolation`. Otherwise only the matching row changes, by `ApplyUpdate`, and it is returned. A failure changes nothing, and containers are untouched. |
| ApiModel.FromEntity | src/api/model.rs:18-37 | Total. It keeps id, name, image, created_at and updated_at. |
| ApiModel.FromEntities | src/api/containers.rs:81-84 | One `Container` per entity, in the same order. |
| ApiModel.FromEntityInjective | src/api/model.rs:18-37 | Distinct entities give distinct containers. |
| ContainersApi.SingleFrom | src/api/containers.rs:26-32 | The body always holds `Some(container)`. |
| ContainersApi.MultiFrom | src/api/containers.rs:42-50 | The body holds the containers unchanged, and `containersCount` is their number. Requires at most `i32::MAX` entries (the `unwrap`). |
| ContainersApi.ListContainers | src/api/containers.rs:60-93 | A begin failure gives `DBError` after the begin step only. A query failure gives `DBProvideError` with the classified error, and commit is never attempted. A commit failure gives `DBError`. Otherwise the body lists one `Container` per stored record, in `created_at` order, with count = length. The database is unchanged. |
| ContainersApi.CreateContainer | src/api/containers.rs:95-129 | Same step-by-step failure mapping as the list workflow. A taken id or name gives `DBProvideError(UniqueViolation)`. On success the body holds a container with the request's name and image, and the database has gained exactly that row. Any failure, a commit failure included, leaves the database unchanged. |
| ContainersApi.CreateThenFind | src/api/containers.rs:113-126 | After a fault-free create, lookup by name returns that record with the given id, name and image. A second create under the same name fails with `UniqueViolation` and stores nothing. |
| Json.RenderPlainString | src/api/client.rs:48-50 | `Display` of a JSON string writes it between double quotes; this is what `format!("{}", msg)` produces. |
| Client.GetGraphqlStrListContainers | src/api/client.rs:74-76 | The request body is a fixed query whose selection is `containers { containers { name }, containersCount }`. |
| Client.GetGraphqlStrListContainersAllFields | src/api/client.rs:74-76 | The corrected query, which selects id, name, image, createdAt and updatedAt, plus `containersCount`. |
| Client.DecodeContainerList | src/api/client.rs:57-61 | `Vec<Container>` decodes iff every element decodes, keeping order and length. |
| Client.DecodeReply | src/api/client.rs:37-67 | null `data` with `errors` → `MiscError("Error while requesting containers: " + Display of the first error's extensions.internal_error)`. null `data` without `errors` → `MiscError("Data is null, and there are no errors.")`. `data` with `containers` → success iff that value deserializes, and the result is the decoded body; otherwise `JSONError`. `data` without `containers` → `MiscError("Data is not null, and there are no containers.")`. Requires the `errors` shape the `expect`s demand. |
| Client.ErrorReplyMessage | src/api/client.rs:38-50 | For every error reply, the message is the prefix followed by the first internal error as `Display` writes it: escaped (quote, backslash, control characters) and between double quotes. |
| Client.ErrorReplyMessagePlain | src/api/client.rs:38-50 | When the internal error has no quote, backslash or control character, it appears verbatim between double quotes after the prefix. |
| Client.FullReplyRoundTrip | src/api/client.rs:57-61 | A reply listing every field of every container decodes to exactly the body the server sent. This holds whenever chrono parses back the timestamps it wrote. |
| Client.NameOnlyReplyFails | src/api/client.rs:57-61 | Any non-empty reply to the query as written fails with `JSONError("Could not deserialize containers")`. |

## Left out

- Container engine steps (pull, create, start, the reconciling list): src/ has none. The engine connection and version check in `State::new` (src/state/mod.rs:53-59) are setup and are left out with the rest of `State::new`.
- `delete_container_by_name`: declared at src/db/model.rs:34-37 but implemented nowhere in src/db/pg.rs, so there is nothing to model.
- Migration tooling (`init_db`, `migration_up`, `migration_down`): it spawns a subprocess and streams its output.
- Pool and connection setup (`connect`, `impl Db for PgPool`, `State::new`): these are network connections. A failed begin or commit is a parameter instead.
- SQL text and sqlx row decoding (`FromRow`): foreign library code. The model states its effect on the table rows.
- Sending the HTTP request and the blocking thread bridge in src/api/client.rs: network I/O and threads.
- GraphQL resolvers and schema (src/api/gql.rs), src/test.rs, src/init.rs and src/auth/mod.rs: they only delegate, log or bootstrap.
- Real timestamp semantics: a timestamp is an integer. chrono's text form is a function parameter of the decoder.
- Concurrency: transactions run one at a time. `now()` is one reading per statement, not per transaction.
- JSON floating-point numbers: the model has integers only.
- The text of serde's deserialization errors: only the client's own `JSONError` message is kept.
- PgStore.Connection.CreateUser: requires the server-generated id to be fresh. A uuid collision on the primary key is not modelled.
- PgStore.Connection.CreateContainer: when both the id and the name are taken, the model reports the id. Which unique index Postgres reports first depends on the schema.
- PgStore.Connection.CreateUser: when both the username and the email are taken, the model reports the username. Which unique index Postgres reports first depends on the schema.
- PgStore.Connection.UpdateUser: when the new username and the new email are both held by other users, the model reports the username, for the same reason.
- PgStore.Connection.GetAllContainers: rows with equal `created_at` may come back in any order, as SQL leaves ties unspecified. The contract states sortedness and permutation, not a tie order.

## Findings

| source | as written | input that shows it | evidently intended | confidence | as-written member | corrected member |
|---|---|---|---|---|---|---|
| src/api/client.rs:74-76 | The query selects only `name` for each container. The reply is then deserialized into `Container`, which also needs `id`, `image`, `createdAt` and `updatedAt`. | `{"data":{"containers":{"containers":[{"name":"a"}],"containersCount":1}}}` gives `JSONError("Could not deserialize containers")` | The query selects all five fields, so that a successful listing decodes. | high; not executed | Client.NameOnlyReplyFails | Client.FullReplyRoundTrip |
