/** Failure-compatible wrappers: an optional value and the outcome of an
    operation that may throw. */
module Wrappers {

  /** A value that may be absent (a C# reference that may be null). */
  datatype Option<+T> = None | Some(value: T)

  /** Either a value or the error an operation was rejected with. */
  datatype Result<+T, +E> = Ok(value: T) | Err(error: E)
}
