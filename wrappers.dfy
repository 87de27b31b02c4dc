/** Failure-carrying result types shared by the decoders. */
module Wrappers {

  /** A value that may be absent (an optional field of a decoded message). */
  datatype Option<+T> = None | Some(value: T)

  /** Either a decoded value or the error that stopped decoding. */
  datatype Result<+T, +E> = Ok(value: T) | Err(error: E)
}
