/** Stand-ins for Java's `null` and for exceptions that a caller can observe. */
module Wrappers {

  /** A reference that may be `null`. */
  datatype Option<+T> = None | Some(value: T)

  /** The outcome of an operation that either returns a value or throws. */
  datatype Result<+T, +E> = Ok(value: T) | Err(error: E)
}
