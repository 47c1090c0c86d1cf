/** A value that may be absent: a row that a lookup did not find, a driver error that did not occur. */
module Wrappers {
  datatype Option<T> = None | Some(value: T)
}
