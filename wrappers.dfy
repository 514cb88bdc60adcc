/** Optional values and results, used wherever the source returns `None`,
    leaves a field `undefined`, or raises an exception. */
module Wrappers {

  datatype Option<+T> = None | Some(value: T)

  /** `Err` carries the message of the exception the source raises. */
  datatype Result<+T> = Ok(value: T) | Err(error: string)
}
