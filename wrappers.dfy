/** Optional values and results with an error, shared by the store models. */
module Wrappers {

  /** A value that may be missing (JavaScript's null and undefined). */
  datatype Option<+T> = None | Some(value: T)

  /** The outcome of an operation that may throw: a value or an error. */
  datatype Result<+T, +E> = Success(value: T) | Failure(error: E)
}
