/** Option and Result, used for JavaScript's "absent" values and for thrown errors. */
module Wrappers {

  datatype Option<+T> = None | Some(value: T)

  /** `Failure` carries the message of the Error a JavaScript function throws or rejects with. */
  datatype Result<+T, +E> = Success(value: T) | Failure(error: E)
}
