// Option and Result: a missing value, and the outcome of an operation that
// Python ends by raising an exception.

module Common {

  datatype Option<+T> = None | Some(value: T)

  datatype Result<+T, +E> = Ok(value: T) | Err(error: E)
}
