/** Failure-compatible wrappers shared by the crawler and the profiler models. */
module Wrappers {

  /** A value that may be missing: a Java null, or a call that threw. */
  datatype Option<+T> = None | Some(value: T)

  /** The value of an operation that either returns or throws `error`. */
  datatype Result<+T, +E> = Success(value: T) | Failure(error: E)

  /** The outcome of an operation that returns nothing or throws `error`. */
  datatype Outcome<+E> = Pass | Fail(error: E)
}
