/** An optional value: Python's None, Java's empty Optional, a KeyError. */
module Wrappers {
  datatype Option<+T> = None | Some(value: T)
}
