/** Value types for Java's Optional and for thrown exceptions. */
module Wrappers {

  /** java.util.Optional: a value that may be absent. */
  datatype Option<+T> = None | Some(value: T)

  /** The value of a computation, or the exception that aborted it. */
  datatype Result<+R, +E> = Success(value: R) | Failure(error: E)

  /** A computation that returns nothing but may throw. */
  datatype Outcome<+E> = Pass | Fail(error: E)
}
