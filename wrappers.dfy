/** Go's `error` values and the outcomes of calls into the registry client. */
module Wrappers {

  /** A value or nothing; `None` stands for Go's nil pointer or nil error. */
  datatype Option<+T> = None | Some(value: T)

  /** A Go `error`, reduced to the text its `Error()` method returns. */
  datatype Error = Error(message: string)

  /** The outcome of a registry-client call that returns a value and an error. */
  datatype Result<+T> = Ok(value: T) | Failed(error: Error)

  /** The outcome of a registry-client call that returns only an error. */
  datatype Outcome = Pass | Fail(error: Error)
}
