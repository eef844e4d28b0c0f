/** Failure-carrying values shared by every module of the model. */
module Wrappers {

  /** A value that may be absent (JavaScript's `undefined` / `null`). */
  datatype Option<+T> = None | Some(value: T)

  /** Either a value or a thrown JavaScript `Error`, represented by its `message`. */
  datatype Result<+T> = Ok(value: T) | Err(message: string)
}
