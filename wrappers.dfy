/** Option and result wrappers shared by the generator and the operation models. */
module Wrappers {

  /** A possibly absent value: Go's nil pointer, C#'s null string. */
  datatype Option<+T> = None | Some(value: T)

  /** A value or an error message, as Go's `(value, error)` pair. */
  datatype Result<+R, +E> = Ok(value: R) | Err(error: E)
}
