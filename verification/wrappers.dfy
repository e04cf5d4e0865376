/** An optional value: a DOM attribute that may be unset, a cookie assignment that may be ignored. */
module Wrappers {
  datatype Option<+T> = None | Some(value: T)
}
