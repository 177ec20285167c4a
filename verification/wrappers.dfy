/** The null-or-value and value-or-exception shapes of the Java code, made explicit. */
module Wrappers {

  /** A Java reference that may be null. */
  datatype Option<+T> = None | Some(value: T)

  /** A Java call that returns a value or throws. */
  datatype Result<+T, +E> = Ok(value: T) | Err(error: E)

  /** A Java `void` call that returns or throws. */
  datatype Outcome<+E> = Pass | Fail(error: E)
}
