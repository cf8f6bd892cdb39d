/** Option and Result datatypes shared by the services. */
module Common {

  /** A value that may be absent (Python's `None`). */
  datatype Option<+T> = None | Some(value: T)

  /** The outcome of an operation that may raise an exception. */
  datatype Result<+T, +E> = Ok(value: T) | Err(error: E)
}
