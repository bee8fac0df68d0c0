/** An optional value: a session field that may be unset. */
module Wrappers {
  datatype Option<T> = None | Some(value: T)
}
