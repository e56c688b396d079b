/** Option and Result values shared by the overlay and the canvas editor models. */
module Wrappers {

  /** A value that may be absent (JavaScript `undefined`/`NaN`, Python `None`). */
  datatype Option<+T> = None | Some(value: T)

  /** The outcome of an operation that either returns a value or raises an error. */
  datatype Result<+T, +E> = Success(value: T) | Failure(error: E)
}
