/** Optional values and results with an error, used by every other module. */
module Base {

  /** A value that may be absent: Python's `None` or a missing attribute. */
  datatype Option<+T> = None | Some(value: T)

  /** The outcome of an operation that may raise: its value, or the exception it raised. */
  datatype Result<+T, +E> = Success(value: T) | Failure(error: E)
}
