// Small generic datatypes shared by the other modules.

module Wrappers {

  /** A value that may be missing. */
  datatype Option<+T> = None | Some(value: T)
}
