/** Optional values and error-or-value results shared by the other modules. */
module Wrappers {

  /**
   * A value that may be absent: an undefined state argument, or an optional
   * field of the state object, where `undefined` data and a `null` requestId
   * or requestError are all None.
   */
  datatype Option<+T> = None | Some(value: T)

  /** The outcome of an operation that may throw: Err carries what was thrown. */
  datatype Result<+T, +E> = Ok(value: T) | Err(error: E)
}
