/** Optional values and results, as the handlers below need them. */
module Wrappers {

  /** A value that may be absent: a JavaScript `undefined` (or `null`) is `None`. */
  datatype Option<+T> = None | Some(value: T)

  /** The outcome of an operation that may fail with an error value. */
  datatype Result<+R, +E> = Success(value: R) | Failure(error: E)
}
