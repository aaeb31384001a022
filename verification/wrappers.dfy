/** The optional value used throughout the model for JavaScript's `undefined`,
    `null` and "an exception was thrown and caught". */
module Wrappers {
  datatype Option<+T> = None | Some(value: T)
}
