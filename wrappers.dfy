/** Option and Result, used for JavaScript's `undefined`/`null` and for thrown errors. */
module Wrappers {

  /** `None` stands for a missing (`undefined` or `null`) value. */
  datatype Option<+T> = None | Some(value: T)

  /** `Err` carries the message of an error the source throws or reports. */
  datatype Result<+T, +E> = Ok(value: T) | Err(error: E)
}
