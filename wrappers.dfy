/** Optional values and success-or-error results, used for the optional
    fields of the calculator's records and for the functions that throw. */
module Wrappers {

  /** A value that may be absent (`undefined` or `null` in the source). */
  datatype Option<+T> = None | Some(value: T)

  /** The outcome of a function that either returns a value or throws an
      `Error` carrying a message. */
  datatype Result<+T, +E> = Ok(value: T) | Err(error: E)
}
