/** Failure-carrying wrappers shared by the model. */
module Wrappers {

  /** An optional value: a fixture's user data may be absent (`null`). */
  datatype Option<+T> = None | Some(value: T)

  /** A value or the error that prevented it. */
  datatype Result<+T, +E> = Ok(value: T) | Err(error: E)
}
