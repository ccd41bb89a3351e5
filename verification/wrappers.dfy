/** Option and Result, the two failure-compatible wrappers the model uses for
    Java's Optional and for calls that may throw. */
module Wrappers {

  /** Java's `Optional`: `None` is `Optional.empty()` (or a null field). */
  datatype Option<+T> = None | Some(value: T)

  /** The outcome of a Java call that either returns a value or throws. */
  datatype Result<+R, +E> = Success(value: R) | Failure(error: E)
}
