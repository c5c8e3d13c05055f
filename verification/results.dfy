/** Absence and failure values: Java's `null`/`Optional` and thrown exceptions. */
module Results {

  /** An optional value: `None` stands for Java's `null` or an empty `Optional`. */
  datatype Option<+T> = None | Some(value: T)

  /** The outcome of a call that either returns a value or throws. */
  datatype Result<+T, +E> = Success(value: T) | Failure(error: E)
}
