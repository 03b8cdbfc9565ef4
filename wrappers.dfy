/** Optional values and error-carrying results shared by every module. */
module Wrappers {

  /** A value that may be absent: JavaScript's `null` / `undefined`. */
  datatype Option<+T> = None | Some(value: T)

  /** The outcome of an operation that either succeeds or throws. */
  datatype Outcome<+E> = Pass | Fail(error: E)
}
