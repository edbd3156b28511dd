/** Failure-carrying results: `Option`, `Result` and the unit-valued `Outcome`
    that stands for Rust's `anyhow::Result<()>`. */
module Wrappers {

  datatype Option<+T> = None | Some(value: T)

  datatype Result<+R, +E> = Success(value: R) | Failure(error: E)

  datatype Outcome<+E> = Pass | Fail(error: E)
}
