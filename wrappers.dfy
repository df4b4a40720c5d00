/** Option and Result, the two failure-carrying shapes the model uses for
    JavaScript's `null`/`undefined` lookups and its `{ error }` return values. */
module Wrappers {

  datatype Option<+T> = None | Some(value: T)

  /** `Err` carries the exact message string the source would return. */
  datatype Result<+T> = Ok(value: T) | Err(error: string)
}
