/** Failure-compatible datatypes shared by the model. */
module Wrappers {

  /** A value that may be absent (JavaScript `undefined`/`null`). */
  datatype Option<+T> = None | Some(value: T)

  /** The value of a promise that resolves with `value` or rejects with `error`. */
  datatype Result<+T, +E> = Success(value: T) | Failure(error: E)

  /** The settlement of a promise whose value is not used: resolved or rejected with `error`. */
  datatype Outcome<+E> = Pass | Fail(error: E)
}
