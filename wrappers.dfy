/** Failure-carrying wrappers used across the model. */
module Wrappers {

  /** An optional value: `None` where the source reports "not found". */
  datatype Option<+T> = None | Some(value: T)

  /** The outcome of an external call: its value, or the error it reported. */
  datatype Result<+T> = Success(value: T) | Failure(error: string)
}
