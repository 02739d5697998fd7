/** Failure-carrying values used for the replies of the remote backend and
    for the outcome of each store action (a thrown error becomes Failure). */
module Wrappers {

  datatype Option<+T> = None | Some(value: T)

  datatype Result<+R, +E> = Success(value: R) | Failure(error: E)

  /** The reply of a call that yields nothing but may fail. */
  datatype Outcome<+E> = Pass | Fail(error: E)
}
