/** Optional values and the outcome of one remote call. */
module Wrappers {

  /** A value that may be absent (`T | null` in the application). */
  datatype Option<+T> = None | Some(value: T)

  /** How an awaited remote call settled: resolved with a result, or rejected. */
  datatype Outcome<+T> = Success(result: T) | Failure
}
