/** Optional values (a JavaScript `null` or `undefined`) and request outcomes. */
module Wrappers {
  datatype Option<T> = None | Some(value: T)

  /** A computed value, or the HTTP status a route answers with instead. */
  datatype Result<T> = Success(value: T) | Failure(status: nat)
}
