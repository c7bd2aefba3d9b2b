/** The optional value used for absent JavaScript values (`undefined`, `null`). */
module Wrappers {
  datatype Option<+T> = None | Some(value: T)
}
