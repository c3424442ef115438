/** A value that may be absent: a C pointer that may be null, a lookup that may miss. */
module Wrappers {
  datatype Option<T> = None | Some(value: T)
}
