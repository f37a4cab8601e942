/** Option and Result values shared by the frontend and backend models. */
module Wrappers {

  datatype Option<+T> = None | Some(value: T)

  /** A computation that either produced a value or failed with a message
      (the message a Python exception or a JavaScript error carries). */
  datatype Result<+T> = Ok(value: T) | Err(error: string)
}
