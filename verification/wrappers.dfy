/** Results of calls that can revert. */
module Wrappers {

  /** A value-returning call: the value, or the reason it reverted. */
  datatype Result<+T, +E> = Success(value: T) | Failure(error: E)

  /** A call that returns nothing: it passes, or reverts with a reason. */
  datatype Outcome<+E> = Pass | Fail(error: E)
}
