/** Failure-carrying values shared by every module: an optional value, a value
    or an error, and the pass/fail outcome of an effect that returns nothing. */
module Wrappers {

  datatype Option<+T> = None | Some(value: T)

  /** The result of a call that either returns `value` or raises `error`. */
  datatype Result<+T, +E> = Ok(value: T) | Err(error: E)

  /** The result of a call made only for its effect (a write that may raise). */
  datatype Outcome = Pass | Fail(reason: string)
}
