/** Option and Result, the two outcome shapes the rest of the model uses. */
module Base {

  /** A value that may be absent (Python's None, a missing dictionary entry). */
  datatype Option<+T> = None | Some(value: T)

  /** The result of an operation that either succeeds with a value or fails with an error. */
  datatype Result<+T, +E> = Ok(value: T) | Err(error: E)
}
