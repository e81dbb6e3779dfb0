/** Optional values and results with an error, the two shapes Go's `(T, error)` returns take. */
module Wrappers {

  datatype Option<+T> = None | Some(value: T)

  datatype Result<+T, +E> = Success(value: T) | Failure(error: E)
}
