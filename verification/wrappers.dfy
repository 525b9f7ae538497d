/** Failure-carrying values shared by the other modules. */
module Wrappers {

  /** A value that may be absent; JavaScript's `undefined` in most uses here. */
  datatype Option<+T> = None | Some(value: T)

  /** The outcome of an asynchronous call: a resolved value or a rejection reason. */
  datatype Result<+R, +E> = Success(value: R) | Failure(error: E)
}
