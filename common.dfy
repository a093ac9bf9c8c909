/** Failure-carrying values shared by every module of the model. */
module Common {

  /** A value that may be absent (`undefined` in the source). */
  datatype Option<+T> = None | Some(value: T)

  /** The outcome of a computation that either yields a value or throws an `Error` with a message. */
  datatype Result<+T> = Ok(value: T) | Err(error: string)

  /** The outcome of an `async` step that resolves to nothing or rejects with a message. */
  datatype Outcome = Pass | Fail(message: string)
}
