/** Option and Result: the error paths of the access layer are values, not exceptions. */
module Results {

  datatype Option<+T> = None | Some(value: T)

  /** `Err` carries the exception the Python code would raise. */
  datatype Result<+T, +E> = Ok(value: T) | Err(error: E)
}
