/** Failure-carrying values shared by the other modules. */
module Wrappers {

  /** A value that may be absent. */
  datatype Option<+T> = None | Some(value: T)

  /** The value of a call that either returns or throws with a message. */
  datatype Result<+R, +E> = Success(value: R) | Failure(error: E)
}
