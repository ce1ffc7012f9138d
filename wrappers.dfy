/** Failure-carrying values used throughout the model: a NULL C string is `None`,
    an `elog(ERROR, ...)` is a `Failure`. */
module Wrappers {

  datatype Option<+T> = None | Some(value: T)

  datatype Result<+R, +E> = Success(value: R) | Failure(error: E)

  /** A check that either passes or raises an error; it carries no value. */
  datatype Outcome<+E> = Pass | Fail(error: E)
}
