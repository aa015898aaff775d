/** Option and Result, the two failure-carrying shapes the model uses for
    JavaScript's `undefined`/`null` values and for thrown errors. */
module Wrappers {

  datatype Option<+T> = None | Some(value: T)

  /** `Ok(row)` is a handler's `{ success: true, ... }` answer, `Err(msg)` its
      `{ error: msg }` answer. */
  datatype Result<+T> = Ok(value: T) | Err(error: string)
}
