/** Result types standing in for C++ null pointers and exceptions. */
module Wrappers {

  /** A value that may be absent (where C++ returns a null pointer). */
  datatype Option<+T> = None | Some(value: T)

  /** A value or the exception C++ throws instead. */
  datatype Result<+T, +E> = Success(value: T) | Failure(error: E)

  /** Success or the exception C++ throws, for operations returning void. */
  datatype Outcome<+E> = Pass | Fail(error: E)
}
