/** Option and Result values shared by the parser and the notification handler. */
module Wrappers {

  datatype Option<+T> = None | Some(value: T)

  /** The outcome of an operation that raises an exception carrying `message` on failure. */
  datatype Result<+T> = Ok(value: T) | Err(message: string)
}
