/** Failure-aware wrappers shared by every module of the model. */
module Wrappers {

  /** `None` stands for "the call raised" or for Python's `None`. */
  datatype Option<+T> = None | Some(value: T)

  /** The value of a call, or the exception it raised. */
  datatype Result<+T, +E> = Ok(value: T) | Err(error: E)
}
