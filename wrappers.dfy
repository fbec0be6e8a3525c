/** Option, Result and Either: the shapes Java's null, exceptions and vavr's Either take here. */
module Wrappers {

  /** A value that may be Java's `null`. */
  datatype Option<+T> = None | Some(value: T)

  /** The outcome of a Java call: it returned a value or it raised a failure. */
  datatype Result<+T, +E> = Success(value: T) | Failure(error: E)

  /** vavr's `Either`: `Left` carries the failure notification, `Right` the output. */
  datatype Either<+L, +R> = Left(left: L) | Right(right: R)
}
