/** Small failure-carrying datatypes used throughout the model. */
module Base {

  /** A value that may be absent (a Java reference that may be null). */
  datatype Option<+T> = None | Some(value: T)

  /** Either a value or the reason the computation stopped. */
  datatype Result<+T, +E> = Ok(value: T) | Err(error: E)
}
