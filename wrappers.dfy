/** Option and Result datatypes used across the model. */
module Wrappers {

  /** A value that may be absent (a Java `null`). */
  datatype Option<+T> = None | Some(value: T)

  /** A computation that either yields a value or throws an exception. */
  datatype Result<+R, +E> = Ok(value: R) | Err(error: E)
}
