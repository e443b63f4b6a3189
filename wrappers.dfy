/** Option, Result and the outcome of code that may panic. */
module Wrappers {
  datatype Option<+T> = None | Some(value: T)

  datatype Result<+R, +E> = Ok(value: R) | Err(error: E)

  datatype Unit = Unit

  /** A call that either returns or panics (`todo!`, `expect`, `assert!`) with a message. */
  datatype Outcome<+T> = Returned(value: T) | Panicked(message: string)
}
