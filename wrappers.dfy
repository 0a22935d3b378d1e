/** Option and Result, used for JavaScript's `null` and for thrown errors. */
module Wrappers {

  datatype Option<+T> = None | Some(value: T)

  /** `Err(e)` stands for an exception whose message is `e`. */
  datatype Result<+T, +E> = Ok(value: T) | Err(error: E)
}
