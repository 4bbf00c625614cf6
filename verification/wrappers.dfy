/** Failure-carrying values used in place of Go's `(value, error)` pairs and of
    `log.Fatalf` / `log.Panic`, which the model turns into error results. */
module Wrappers {

  datatype Option<+T> = None | Some(value: T)

  /** A value or the error that stopped its computation. */
  datatype Result<+R, +E> = Success(value: R) | Failure(error: E)

  /** Success without a value, or the error of a check that failed. */
  datatype Outcome<+E> = Pass | Fail(error: E)
}
