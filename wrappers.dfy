/** Optional values and the outcome of a call that may throw a JavaScript `Error`. */
module Wrappers {

  datatype Option<+T> = None | Some(value: T)

  /** `Err` carries the `message` of the thrown `Error`. */
  datatype Result<+T> = Ok(value: T) | Err(message: string)
}
