/** Optional values and the two outcomes of an operation that may throw. */
module Wrappers {

  datatype Option<+T> = None | Some(value: T)

  /** What a throwing operation hands back: a value, or the exception it raised. */
  datatype Result<+T, +E> = Success(value: T) | Failure(error: E)
}
