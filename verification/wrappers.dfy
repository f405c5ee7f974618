/** Failure-carrying datatypes shared by the rest of the model. */
module Wrappers {

  /** An optional value; also used for "the external call threw" (None). */
  datatype Option<+T> = None | Some(value: T)

  /** The value of a successful operation, or the error it raised. */
  datatype Result<+T, +E> = Success(value: T) | Failure(error: E)
}
