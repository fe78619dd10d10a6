module Wrappers {

  /** A value that may be absent: Python's None, and a lookup that may fail. */
  datatype Option<+T> = None | Some(value: T)
}
