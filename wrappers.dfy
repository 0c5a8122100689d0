/** Failure-compatible wrappers shared by the generator and validator modules. */
module Wrappers {

  /** A value that may be missing; `None` stands for a null cell of a frame. */
  datatype Option<+T> = None | Some(value: T)

  /** The outcome of a step that returns a value or raises. */
  datatype Result<+R, +E> = Success(value: R) | Failure(error: E)

  /** The outcome of a check that passes or fails with a reason. */
  datatype Outcome<+E> = Pass | Fail(error: E)
}
