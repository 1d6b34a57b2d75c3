/** Option and Result values standing in for Java's null and thrown exceptions. */
module Wrappers {

  /** A value that may be absent (Java's null). */
  datatype Option<+T> = None | Some(value: T)

  /** A value or the message of the exception that replaced it. */
  datatype Result<+T> = Ok(value: T) | Err(message: string)
}
