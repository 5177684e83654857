/** Failure-carrying values used in place of JavaScript's `undefined` and thrown errors. */
module Wrappers {

  /** `None` stands for an absent value (JavaScript `undefined`). */
  datatype Option<+T> = None | Some(value: T)

  /** The result of a computation that either returns a value or throws an error. */
  datatype Result<+T, +E> = Success(value: T) | Failure(error: E)

  /** A check that either passes or fails with an error and yields no value. */
  datatype Outcome<+E> = Pass | Fail(error: E)
}
