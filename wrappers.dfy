/** The usual optional-value datatype: `None` stands for JavaScript's `null`/`undefined`/falsy values. */
module Wrappers {
  datatype Option<+T> = None | Some(value: T)
}
