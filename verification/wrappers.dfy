/** Failure-carrying result types used throughout the model. */
module Wrappers {

  /** A value that may be absent, used for guarded reads and optional report lines. */
  datatype Option<+T> = None | Some(value: T)

  /** Either a computed value or the reason the computation was refused. */
  datatype Result<+T, +E> = Success(value: T) | Failure(error: E)
}
