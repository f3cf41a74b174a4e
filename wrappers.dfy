/** Optional values and success/failure results, used wherever the
    TypeScript code returns `undefined`/`null` or throws an `Error`. */
module Wrappers {

  datatype Option<+T> = None | Some(value: T)

  /** `Err` carries the message of the `Error` that the source throws. */
  datatype Result<+T> = Ok(value: T) | Err(error: string)
}
