/**
 * The application error (`crate::error::Error`). Its definition, src/error.rs, is
 * not part of this model; these are the variants the modelled code builds, each
 * with its context message and, where it has one, its source.
 */
module AppErrors {
  import Classifier

  datatype Error =
    | DBError(msg: string, dbSource: Classifier.SqlxError)
    | DBProvideError(msg: string, provideSource: Classifier.ProvideError)
    | MiscError(msg: string)
    | JSONError(msg: string)
}
