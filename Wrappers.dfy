/** An optional value: `None` where the code throws or yields null. */
module Wrappers {
  datatype Option<+T> = None | Some(value: T)
}
