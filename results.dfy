/** Failure-carrying values shared by the rest of the model. */
module Results {

  /** A value that may be absent (a TypeScript optional property). */
  datatype Option<+T> = None | Some(value: T)

  /** The value of an operation that either returns or throws. */
  datatype Result<+T, +E> = Success(value: T) | Failure(error: E)

  /** The completion of an operation that returns nothing or throws. */
  datatype Outcome<+E> = Pass | Fail(error: E)
}
