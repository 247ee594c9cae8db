/** Optional values and failing computations, shared by every other module. */
module Base {

  /** A value that may be absent: JavaScript `null` or Python `None`. */
  datatype Option<+T> = None | Some(value: T)

  /** The outcome of an operation that either returns a value or raises. */
  datatype Result<+T, +E> = Ok(value: T) | Err(error: E)
}
