/** Optional values and results with an error value, as returned by the routers. */
module Wrappers {

  /** A value that may be absent: a nullable column or a lookup that found nothing. */
  datatype Option<+T> = None | Some(value: T)

  /** The outcome of a request handler: a value, or the error the handler throws. */
  datatype Result<+T, +E> = Ok(value: T) | Err(error: E)
}
