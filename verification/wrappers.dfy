/** Failure-compatible result types used to report configuration errors
    instead of aborting, and to mark an absent barrier array. */
module Wrappers {

  datatype Option<+T> = None | Some(value: T)

  datatype Result<+R, +E> = Success(value: R) | Failure(error: E)
}
