/** Failure-compatible wrappers standing in for Java's null and for exceptions. */
module Common {

  /** `None` models a Java `null` reference. */
  datatype Option<+T> = None | Some(value: T)

  /** A value, or the exception the source would throw instead. */
  datatype Result<+T, +E> = Success(value: T) | Failure(error: E)

  /** Completion of a void operation, or the exception it throws. */
  datatype Outcome<+E> = Pass | Fail(error: E)
}
