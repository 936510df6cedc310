/** Option and Result, used for JavaScript's `null` and for callbacks that carry an error. */
module Wrappers {

  /** `None` stands for `null` (or any falsy value) where the source tests truthiness. */
  datatype Option<+T> = None | Some(value: T)

  /** The `(error, value)` pair of a Node-style callback: exactly one side is meaningful. */
  datatype Result<+T, +E> = Ok(value: T) | Err(error: E)
}
