/** Stand-ins for Java's null and for a constructor that throws. */
module Wrappers {

  /** A value that Java may leave null: `None` is null. */
  datatype Option<+T> = None | Some(value: T)

  /** The outcome of a Java call that either returns a value or throws. */
  datatype Result<+R, +E> = Success(value: R) | Failure(error: E)
}
