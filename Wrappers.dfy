/** A value that may be absent: JavaScript's `null`/`undefined` in the modelled code. */
module Wrappers {
  datatype Option<+T> = None | Some(value: T)
}
