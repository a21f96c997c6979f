/** Option and result types shared by the model. */
module Wrappers {

  datatype Option<+T> = None | Some(value: T)

  /** The outcome of a computation that may raise one of the source's exceptions. */
  datatype Result<+T, +E> = Ok(value: T) | Err(error: E)
}

/** Octets, as Python's `bytes` holds them. */
module Bytes {
  type byte = x: int | 0 <= x < 256
}
