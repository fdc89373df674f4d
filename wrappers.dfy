/** Optional values and success/failure results, used for JavaScript's
    `undefined` fields and for calls that either return or throw. */
module Wrappers {

  datatype Option<+T> = None | Some(value: T)

  datatype Result<+T, +E> = Success(value: T) | Failure(error: E)

  /** A call that returns nothing on success. */
  datatype Unit = Unit
}
