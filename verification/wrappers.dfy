/** Small failure-carrying datatypes shared by the relay modules. */
module Wrappers {

  /** A value that may be absent: `undefined` / an empty result set in the relay. */
  datatype Option<+T> = None | Some(value: T)

  /** The outcome of an awaited call that either returns a value or throws. */
  datatype Result<+T, +E> = Ok(value: T) | Err(error: E)
}
