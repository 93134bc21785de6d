/** Option and Result, the two failure-carrying datatypes the rest of the model uses. */
module Wrappers {

  /** Python's `Optional[T]`: `None` or a present value. */
  datatype Option<+T> = None | Some(value: T)

  /** The outcome of a call that either returns a value or raises. */
  datatype Result<+T, +E> = Ok(value: T) | Err(error: E)
}
