/** Option and Result, used for the nullable values and the exceptions of the switches. */
module Wrappers {

  datatype Option<+T> = None | Some(value: T)

  /** `Err` stands for an exception thrown out of a switch's `Parse`. */
  datatype Result<+T, +E> = Ok(value: T) | Err(error: E)
}
