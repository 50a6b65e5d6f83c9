module Wrappers {

  /** A value that may be absent, such as the result of a storage lookup. */
  datatype Option<+T> = None | Some(value: T)
}
