/** Optional values and outcomes shared by the modules of the model. */
module Wrappers {

  /** A value that may be absent (JavaScript `undefined`). */
  datatype Option<+T> = None | Some(value: T)

  /** The outcome of an operation that either returns a value or throws an
      `Error`; the error is identified by its message, as its callers do. */
  datatype Result<+T> = Success(value: T) | Failure(error: string)
}
