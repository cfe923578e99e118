/** Option and Result, for the source's nulls and thrown exceptions. */
module Wrappers {

  /** A value that the source may hold as `null`. */
  datatype Option<+T> = None | Some(value: T)

  /** The outcome of an operation that the source ends by throwing. */
  datatype Result<+R, +E> = Success(value: R) | Failure(error: E)
}
