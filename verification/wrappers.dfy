/** Optional values and error-carrying results, standing in for Java's
    nullable references and thrown exceptions. */
module Wrappers {

  /** A value that may be absent: `None` plays the part of a Java `null`. */
  datatype Option<+T> = None | Some(value: T)

  /** Either a value or the error that a Java method would have thrown. */
  datatype Result<+R, +E> = Success(value: R) | Failure(error: E)
}
