/** Failure-carrying values used across the model. */
module Wrappers {

  /** A value that may be absent: `None` stands for C#'s `null`. */
  datatype Option<+T> = None | Some(value: T)

  /** The outcome of an operation that either completes or throws with a message. */
  datatype Outcome = Pass | Fail(message: string)
}
