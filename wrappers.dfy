/** Failure-carrying values shared by every module of the model. */
module Wrappers {

  /** A value that may be absent: JavaScript's `undefined`/`null`, or "not found". */
  datatype Option<+T> = None | Some(value: T)

  /** The outcome of a step that has no value of its own but may throw. */
  datatype Outcome<+E> = Pass | Fail(error: E)

  /** The outcome of a step that produces a value or fails. */
  datatype Result<+T, +E> = Success(value: T) | Failure(error: E)
}
