/**
 * The provider-error taxonomy and the classifier that maps backend failures
 * onto it: `TryFrom<&PgError> for ProvideError` (src/db/pg.rs) and
 * `From<sqlx::Error> for ProvideError` (src/db/model.rs).
 */
module Classifier {
  import opened Wrappers

  /** A Postgres error report: its SQLSTATE code, its DETAIL line and its primary message. */
  datatype PgError = PgError(code: Option<string>, details: Option<string>, message: string)

  /** The boxed error behind `sqlx::Error::Database`: a Postgres report, or one from another backend. */
  datatype DatabaseError =
    | PgDatabaseError(pg: PgError)
    | OtherDatabaseError(message: string)

  /** `sqlx::Error`. Every variant other than `RowNotFound` and `Database` is `Other`, labelled by its kind. */
  datatype SqlxError =
    | RowNotFound
    | Database(db: DatabaseError)
    | Other(kind: string)

  /** `ProvideError`: what callers of the persistence port see. */
  datatype ProvideError =
    | NotFound
    | UniqueViolation(details: string)
    | ModelViolation(details: string)
    | UnHandledError(source: SqlxError)

  /** SQLSTATE 23505, unique_violation, in the PostgreSQL error-code appendix. */
  const UniqueViolationCode: string := "23505"

  /** SQLSTATE class 23, integrity constraint violation. */
  const IntegrityClass: string := "23"

  predicate HasPrefix(s: string, prefix: string) {
    |prefix| <= |s| && s[..|prefix|] == prefix
  }

  /**
   * What `try_from` needs of a report so that its two `unwrap`s do not panic:
   * a code, and a DETAIL line when the code is 23505.
   */
  predicate Readable(e: PgError) {
    e.code.Some? && (e.code.value == UniqueViolationCode ==> e.details.Some?)
  }

  /** What `from` needs of an sqlx error: a Postgres report inside it is `Readable`. */
  predicate Classifiable(e: SqlxError) {
    e.Database? && e.db.PgDatabaseError? ==> Readable(e.db.pg)
  }

  /**
   * `TryFrom<&PgError> for ProvideError`: the first matching arm wins, and a code
   * outside class 23 is bounced back to the caller as `Err(())`.
   */
  function TryFromPg(e: PgError): (r: Result<ProvideError, ()>)
    requires Readable(e)
    ensures r.Success? <==> HasPrefix(e.code.value, IntegrityClass)
    ensures r.Success? ==> r.value.UniqueViolation? || r.value.ModelViolation?
    ensures r.Success? && r.value.UniqueViolation? <==> e.code.value == UniqueViolationCode
    ensures r.Success? && r.value.UniqueViolation? ==> r.value.details == e.details.value
    ensures r.Success? && r.value.ModelViolation? ==> r.value.details == e.message
  {
    var code := e.code.value;
    if code == UniqueViolationCode then
      Success(UniqueViolation(e.details.value))
    else if HasPrefix(code, IntegrityClass) then
      Success(ModelViolation(e.message))
    else
      Failure(())
  }

  /** `From<sqlx::Error> for ProvideError`. */
  function FromSqlx(e: SqlxError): (r: ProvideError)
    requires Classifiable(e)
    ensures r == NotFound <==> e == RowNotFound
    ensures r.UnHandledError? ==> r.source == e
    ensures e.Other? ==> r == UnHandledError(e)
    ensures e.Database? && e.db.OtherDatabaseError? ==> r == UnHandledError(e)
    ensures e.Database? && e.db.PgDatabaseError? ==>
              (TryFromPg(e.db.pg).Success? ==> r == TryFromPg(e.db.pg).value) &&
              (TryFromPg(e.db.pg).Failure? ==> r == UnHandledError(e))
  {
    match e
    case RowNotFound => NotFound
    case Database(db) =>
      if db.PgDatabaseError? then
        match TryFromPg(db.pg)
        case Success(provideErr) => provideErr
        case Failure(_) => UnHandledError(Database(db))
      else
        UnHandledError(Database(db))
    case Other(_) => UnHandledError(e)
  }

  /**
   * The taxonomy stated case by case, without relying on match order: no row
   * is `NotFound`; code 23505 is `UniqueViolation` with the DETAIL line; any
   * other class-23 code is `ModelViolation` with the message; everything else
   * is `UnHandledError` around the original error.
   */
  ghost predicate Classifies(e: SqlxError, p: ProvideError)
    requires Classifiable(e)
  {
    var pgCode := if e.Database? && e.db.PgDatabaseError? then e.db.pg.code.value else "";
    var isPg := e.Database? && e.db.PgDatabaseError?;
    || (e.RowNotFound? && p == NotFound)
    || (isPg && pgCode == UniqueViolationCode && p == UniqueViolation(e.db.pg.details.value))
    || (isPg && pgCode != UniqueViolationCode && HasPrefix(pgCode, IntegrityClass)
        && p == ModelViolation(e.db.pg.message))
    || (!e.RowNotFound? && !(isPg && HasPrefix(pgCode, IntegrityClass)) && p == UnHandledError(e))
  }

  /** The conversion is total and single-valued: every error has exactly one classification, the one `FromSqlx` gives. */
  lemma FromSqlxIsTheClassification(e: SqlxError, p: ProvideError)
    requires Classifiable(e)
    ensures Classifies(e, p) <==> p == FromSqlx(e)
  {
    if e.Database? && e.db.PgDatabaseError? {
      var code := e.db.pg.code.value;
      if code == UniqueViolationCode {
        assert HasPrefix(code, IntegrityClass);
      }
    }
  }

  /** 23505 starts with 23, yet it is classified as a unique violation, never as a model violation. */
  lemma UniqueCodeTakesPrecedence(details: string, message: string)
    ensures HasPrefix(UniqueViolationCode, IntegrityClass)
    ensures FromSqlx(Database(PgDatabaseError(PgError(Some("23505"), Some(details), message))))
            == UniqueViolation(details)
  {
  }

  /**
   * The other class-23 codes of the PostgreSQL appendix (integrity_constraint_violation,
   * restrict_violation, not_null_violation, foreign_key_violation, check_violation,
   * exclusion_violation) all become model violations carrying the message; a
   * class-40 code (serialization_failure) is unhandled.
   */
  lemma IntegrityCodes(details: Option<string>, message: string)
    ensures forall code | code in {"23000", "23001", "23502", "23503", "23514", "23P01"} ::
              FromSqlx(Database(PgDatabaseError(PgError(Some(code), details, message))))
              == ModelViolation(message)
    ensures var e := Database(PgDatabaseError(PgError(Some("40001"), details, message)));
            FromSqlx(e) == UnHandledError(e)
  {
    assert "40001"[..2] == "40";
  }
}
