/** Option and Result values used across the model. */
module Wrappers {

  datatype Option<+T> = None | Some(value: T)

  /** A computation that either yields a value or throws `error`. */
  datatype Result<+R, +E> = Success(value: R) | Failure(error: E)
}
