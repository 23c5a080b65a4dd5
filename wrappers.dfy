/** Failure-carrying values used across the model. */
module Wrappers {

  /** A value that may be absent (Java's nullable reference). */
  datatype Option<+T> = None | Some(value: T)

  /** The outcome of a step that may throw: a value, or the fault it raised. */
  datatype Result<+T, +E> = Ok(value: T) | Err(error: E)
}
