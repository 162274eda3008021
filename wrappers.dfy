/** Optional values and success/failure results shared by the service and the controller. */
module Wrappers {

  /** A value that may be absent: JavaScript's `undefined`/`null` versus a value. */
  datatype Option<+T> = None | Some(value: T)

  /** The settlement of a promise that yields nothing: resolved, or rejected with an error. */
  datatype Outcome<+E> = Pass | Fail(error: E)

  /** The settlement of a promise that yields a value: resolved with it, or rejected. */
  datatype Result<+R, +E> = Success(value: R) | Failure(error: E)
}
