/** Optional values and error returns shared by the other modules. */
module Wrappers {

  /** A value that may be absent: `undefined`/`null` on the TypeScript side. */
  datatype Option<+T> = None | Some(value: T)

  /** The outcome of an operation that may throw instead of returning. */
  datatype Result<+T, +E> = Ok(value: T) | Err(error: E)
}
