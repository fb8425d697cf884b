/** Small value wrappers shared by the task store and the components. */
module Wrappers {

  /** An optional value: the store's `error` (null or a message) and a component's
      emitted callback (none or one). */
  datatype Option<+T> = None | Some(value: T)

  /** The abstract result of one call to the remote task service: the value the
      server answered with, or the message of the error the call threw. */
  datatype Outcome<+T> = Ok(value: T) | Err(message: string)
}
