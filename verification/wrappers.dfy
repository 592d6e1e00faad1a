/** Optional values and success/failure results shared by the other modules. */
module Wrappers {

  /** A value that may be absent: JavaScript's `null`/`undefined`, or a lookup that found nothing. */
  datatype Option<+T> = None | Some(value: T)

  /** The outcome of a call that can fail, such as a request to the server. */
  datatype Result<+R, +E> = Success(value: R) | Failure(error: E)
}
