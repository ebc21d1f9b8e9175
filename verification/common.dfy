/** Failure-carrying results shared by the modules of the exchange-rate model. */
module Common {

  /** A value that may be absent (JavaScript's `undefined`). */
  datatype Option<+T> = None | Some(value: T)

  /** The outcome of an operation that either returns a value or throws an
      `Error`; the failure carries the error's message text. */
  datatype Result<+T> = Success(value: T) | Failure(error: string)
}
