/** Failure-carrying results used wherever the simulation raises an exception. */
module Wrappers {

  /** The value of a computation, or the error the simulation would have raised. */
  datatype Result<+T, +E> = Success(value: T) | Failure(error: E)

  /** The outcome of a computation that yields no value. */
  datatype Outcome<+E> = Pass | Fail(error: E)
}
