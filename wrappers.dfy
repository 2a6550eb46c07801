/** Optional values (Java's nullable references) and the outcome of an
    operation that may throw. */
module Wrappers {

  datatype Option<T> = None | Some(value: T)

  /** The Java exceptions the modelled code can raise. */
  datatype Exception = NullPointer | IndexOutOfBounds

  datatype Result<T> = Success(value: T) | Failure(error: Exception)
}
