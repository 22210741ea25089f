/** Option and Result values for prompts that may be cancelled and calls that may throw. */
module Wrappers {

  /** `None` stands for an `undefined` prompt answer (the user dismissed the box or the pick). */
  datatype Option<+T> = None | Some(value: T)

  /** `Err` carries the message of an `Error` the JavaScript code throws. */
  datatype Result<+T> = Ok(value: T) | Err(message: string)
}
