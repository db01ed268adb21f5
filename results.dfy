/** Failure-carrying results shared by the modules of this model. */
module Results {

  /** The outcome of an operation that may raise: a value, or the error it raised. */
  datatype Result<+T, +E> = Ok(value: T) | Err(error: E)

  /** A value that may be absent (Python's `None`). */
  datatype Option<+T> = None | Some(value: T)
}
