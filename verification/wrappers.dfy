/** Failure-carrying datatypes shared by the whole model. */
module Wrappers {

  /** An optional value: a nullable pointer or a "not set" response field. */
  datatype Option<+T> = None | Some(value: T)

  /** A value or an error message: the (value, error) pairs returned by the client. */
  datatype Result<+T> = Ok(value: T) | Err(error: string)
}
