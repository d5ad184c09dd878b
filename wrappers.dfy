/** Optional values and results with an error, for the Go idioms `v, ok` and `v, err`. */
module Wrappers {

  datatype Option<+T> = None | Some(value: T)

  datatype Result<+T, +E> = Success(value: T) | Failure(error: E)
}
