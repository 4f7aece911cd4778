/** Failure-carrying result types shared by the other modules. */
module Wrappers {

  /** A value that may be absent, as `null` is used in the CLI. */
  datatype Option<+T> = None | Some(value: T)

  /** Either a successful value or an error value. */
  datatype Result<+R, +E> = Success(value: R) | Failure(error: E)
}
