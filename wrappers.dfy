/** Failure-compatible wrappers used for the exceptions the engine raises. */
module Wrappers {

  datatype Option<+T> = None | Some(value: T)

  datatype Result<+R, +E> = Success(value: R) | Failure(error: E)

  /** Pass or Fail(error), for operations that raise but return nothing. */
  datatype Outcome<+E> = Pass | Fail(error: E)
}
