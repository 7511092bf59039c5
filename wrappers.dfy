/** The optional value used for JavaScript's `null`/`undefined` and Go's absent results. */
module Wrappers {
  datatype Option<+T> = None | Some(value: T)
}
