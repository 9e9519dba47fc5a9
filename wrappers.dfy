/** Small failure-carrying datatypes shared by the driver and mock models. */
module Wrappers {

  /** An optional value: `None` stands for Go's nil (an absent func or error). */
  datatype Option<+T> = None | Some(value: T)

  /** The outcome of a call that either yields a value or fails with an error. */
  datatype Result<+R, +E> = Success(value: R) | Failure(error: E)
}
