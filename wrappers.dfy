/** Option and Result values standing for JavaScript's `undefined`/`null` and thrown errors. */
module Wrappers {

  /** A value that may be absent (`undefined` or `null` in the source). */
  datatype Option<+T> = None | Some(value: T)

  /** The outcome of an operation that may throw: the value, or the thrown error's message. */
  datatype Result<+T> = Ok(value: T) | Err(error: string)

  /** The outcome of a check that returns nothing or throws. */
  datatype Outcome = Pass | Fail(error: string)
}
