/** Small failure-carrying datatypes shared by the other modules. */
module Wrappers {

  datatype Option<+T> = None | Some(value: T)

  /** A step that either completes or throws. */
  datatype Outcome<+E> = Pass | Fail(error: E)

  /** A value or the error thrown while computing it. */
  datatype Result<+R, +E> = Success(value: R) | Failure(error: E)
}
