/** Small value wrappers shared by the session, game and page modules. */
module Wrappers {

  /** A value that may be absent (JavaScript `null` / `undefined`). */
  datatype Option<+T> = None | Some(value: T)

  /** How a JavaScript call ends: it returns a value or it throws an `Error` with a message. */
  datatype Completion<+T> = Normal(value: T) | Thrown(message: string)
}
