/** Failure-compatible wrappers shared by the other modules. */
module Wrappers {

  /** An optional value: `None` stands for a JavaScript `undefined` or `null`. */
  datatype Option<+T> = None | Some(value: T)

  /** The outcome of a resolver that either yields a value or throws/rejects. */
  datatype Result<+R, +E> = Success(value: R) | Failure(error: E)

  /** The outcome of a check that either passes or throws. */
  datatype Outcome<+E> = Pass | Fail(error: E)
}
