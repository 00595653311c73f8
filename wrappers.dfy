/** Failure-carrying values used in place of the exceptions the bot raises. */
module Wrappers {

  /** A value, or the error that prevented computing it. */
  datatype Result<+T, +E> = Success(value: T) | Failure(error: E)

  /** The completion of an action that returns nothing: it finished, or it raised `error`. */
  datatype Outcome<+E> = Pass | Fail(error: E)
}
