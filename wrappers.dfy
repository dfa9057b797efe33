/** Optional values and error-carrying results, standing in for Kotlin's nullable
    types and for the exceptions the game code throws. */
module Wrappers {

  /** A Kotlin `T?`: either a value or null. */
  datatype Option<+T> = None | Some(value: T)

  /** The outcome of an operation that can throw: a value, or the error it raised. */
  datatype Result<+T, +E> = Success(value: T) | Failure(error: E)

  /** The outcome of an operation without a value that can throw. */
  datatype Outcome<+E> = Pass | Fail(error: E)
}
