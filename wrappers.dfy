/** Failure-carrying wrappers shared by the frontend and backend models. */
module Wrappers {

  datatype Option<+T> = None | Some(value: T)

  /** Either a value or the text of the error raised instead. */
  datatype Result<+T> = Ok(value: T) | Err(message: string)
}
