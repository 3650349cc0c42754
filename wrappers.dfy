/** Failure-carrying result types shared by the registry model. */
module Wrappers {

  /** A value that may be absent; stands for JavaScript's `null`. */
  datatype Option<+T> = None | Some(value: T)

  /** The outcome of an operation that either completes or throws `error`. */
  datatype Outcome<+E> = Pass | Fail(error: E)

  /** The outcome of an operation that either returns `value` or throws `error`. */
  datatype Result<+R, +E> = Ok(value: R) | Err(error: E)
}
