/** Option and Result values used where the source returns None or raises. */
module Wrappers {

  datatype Option<+T> = None | Some(value: T)

  /** The outcome of an operation that may raise: a value, or the exception
      that the source would raise, named by its Python or JavaScript type. */
  datatype Result<+T> = Ok(value: T) | Err(error: string)
}
