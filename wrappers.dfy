/** Failure-carrying return types used in place of the exceptions and
    degenerate numeric results of the strategy. */
module Wrappers {

  datatype Option<+T> = None | Some(value: T)

  datatype Result<+R, +E> = Ok(value: R) | Err(error: E)

  /** Pass, or the first check that failed. */
  datatype Outcome<+E> = Pass | Fail(error: E)
}
