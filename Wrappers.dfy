/** Small failure-carrying datatypes shared by the other modules. */
module Wrappers {

  /** A value that may be absent (the C# `null` of a nullable reference). */
  datatype Option<+T> = None | Some(value: T)

  /** Either a value or the error that a C# method would have thrown. */
  datatype Result<+T, +E> = Ok(value: T) | Err(error: E)
}
