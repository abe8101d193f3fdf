/** Option and Result, the two failure-carrying datatypes the model uses. */
module Wrappers {

  datatype Option<+T> = None | Some(value: T)

  /** `Err` stands for a raised exception: an HTTP error or a failed call. */
  datatype Result<+T, +E> = Ok(value: T) | Err(error: E)
}
