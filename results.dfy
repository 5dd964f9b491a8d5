/** Go's `(value, error)` returns and nil-able pointers, as datatypes. */
module Results {

  /** A value that may be absent (a nil pointer in Go). */
  datatype Option<+T> = None | Some(value: T)

  /** Either a value or the error that took its place. */
  datatype Result<+T, +E> = Ok(value: T) | Err(error: E)
}
