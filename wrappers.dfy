/** An optional value: a form field that may be absent, a row that may not exist. */
module Wrappers {
  datatype Option<T> = None | Some(value: T)
}
