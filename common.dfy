/** Failure-carrying values shared by every module of the model. */
module Common {

  datatype Option<+T> = None | Some(value: T)

  /** The outcome of an operation that either yields a value or reports an error,
      as a Node.js callback receives `(err)` or `(null, value)`. */
  datatype Result<+T, +E> = Success(value: T) | Failure(error: E)
}
