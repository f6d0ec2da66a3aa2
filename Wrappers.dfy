/** Option and Result, the failure-carrying values the model uses for the source's
    nullable returns and thrown errors. */
module Wrappers {

  datatype Option<+T> = None | Some(value: T)

  /** A thrown `Error` is a `Failure` carrying the error's message. */
  datatype Result<+T> = Success(value: T) | Failure(error: string)
}
