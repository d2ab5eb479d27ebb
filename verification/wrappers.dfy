/** Option and Result, the shapes the backend's "row or None" and "value or HTTP error" returns take. */
module Wrappers {

  /** A value that may be absent: Python's `Optional[T]`, a nullable column, JavaScript's `null`. */
  datatype Option<+T> = None | Some(value: T)

  /** A successful value or an error. */
  datatype Result<+T, +E> = Success(value: T) | Failure(error: E)
}
