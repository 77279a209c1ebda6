/** Failure-carrying wrappers shared by the other modules. */
module Wrappers {

  /** An optional value; also the shape of a Go `error` (None is nil). */
  datatype Option<+T> = None | Some(value: T)

  /** The result of an encoder: a value or an error message. */
  datatype Result<+T> = Success(value: T) | Failure(error: string)
}
