/** Optional values (Java's Optional and nullable fields) and the outcome of a
    call that may throw (a value, or the exception it throws). */
module Wrappers {

  datatype Option<+T> = None | Some(value: T)

  datatype Result<+R, +E> = Success(value: R) | Failure(error: E)
}
