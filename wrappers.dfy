/** The optional values and the panic-or-value outcomes shared by the modules of the model. */
module Wrappers {
  datatype Option<T> = None | Some(value: T)

  /** A call that either returns a value or panics with a message. */
  datatype Outcome<T> = Ok(value: T) | Panic(message: string)
}
