/** Optional values and success-or-error values used throughout the model. */
module Results {

  /** A value that may be absent; `None` stands for Python's `None`. */
  datatype Option<T> = None | Some(value: T)

  /** The outcome of an operation that either returns a value or raises an error. */
  datatype Result<T, E> = Success(value: T) | Failure(error: E)
}
