/** A value that may be missing, as a storage read that finds no record. */
module Wrappers {
  datatype Option<T> = None | Some(value: T)
}
