/** Absence of a value, for the source's null references. */
module Wrappers {
  datatype Option<T> = None | Some(value: T)
}
