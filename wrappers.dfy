/** Small value wrappers shared by the other modules. */
module Wrappers {

  /** A value that may be absent: TypeScript's `T | null`. */
  datatype Option<T> = None | Some(value: T)

  /** The outcome of an awaited call that may throw: its value, or the message of the error it threw. */
  datatype Outcome<T> = Ok(value: T) | Thrown(message: string)
}
