/** Optional values, results and pass/fail outcomes, used for the lookups and error paths of the routing node. */
module Wrappers {

  /** A value that may be absent: Kotlin's nullable `T?`. */
  datatype Option<+T> = None | Some(value: T)

  /** A value or the typed error a service call throws instead of returning one. */
  datatype Result<+T, +E> = Ok(value: T) | Err(error: E)

  /** The outcome of a check that returns nothing on success (a Kotlin `Unit` function that may throw). */
  datatype Outcome<+E> = Pass | Fail(error: E)
}
