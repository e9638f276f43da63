/** Option and Result values standing in for JavaScript's `undefined` and for
    promises that either fulfil with a value or reject with an error. */
module Wrappers {

  /** `None` is JavaScript's `undefined` (or a falsy value where the code tests truthiness). */
  datatype Option<+T> = None | Some(value: T)

  /** The settled outcome of one asynchronous step: fulfilled or rejected. */
  datatype Result<+T, +E> = Ok(value: T) | Err(error: E)
}
