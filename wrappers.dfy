/** Option, Result and Outcome values standing in for Java's null and for thrown exceptions. */
module Wrappers {

  /** A value that may be absent; `None` models Java's `null`. */
  datatype Option<+T> = None | Some(value: T)

  /** Either a value or the failure that the Java code throws instead of returning. */
  datatype Result<+R, +E> = Success(value: R) | Failure(error: E)

  /** A `void` Java method: it either returns normally or throws. */
  datatype Outcome<+E> = Pass | Fail(error: E)
}
