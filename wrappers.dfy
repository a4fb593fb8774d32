/** Option and Result values standing for JavaScript's null/undefined and for thrown Errors. */
module Wrappers {

  /** A value that may be missing (`null` or `undefined` in the source). */
  datatype Option<+T> = None | Some(value: T)

  /** The outcome of an operation that may throw; `Err` carries the thrown Error's `message`. */
  datatype Result<+T> = Ok(value: T) | Err(message: string)
}
