/** Option and Result, used for Java's nullable references and for thrown exceptions. */
module Wrappers {

  /** `None` stands for a Java `null`. */
  datatype Option<+T> = None | Some(value: T)

  /** `Err` stands for an exception that leaves the operation. */
  datatype Result<+T, +E> = Ok(value: T) | Err(error: E)
}
