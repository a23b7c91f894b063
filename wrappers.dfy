/** Failure-compatible wrappers: a nullable value, the result of a call that can
    throw (the exception is represented by its Message), and a call that returns
    nothing but can throw. */
module Wrappers {

  /** A value that may be null. */
  datatype Option<+T> = None | Some(value: T)

  /** The outcome of a call that returns a value or throws an exception. */
  datatype Result<+T> = Ok(value: T) | Err(message: string)

  /** The outcome of a call that returns nothing (a plain `Task`) or throws. */
  datatype Outcome = Done | Fail(message: string)
}
