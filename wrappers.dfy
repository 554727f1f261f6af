/** An optional value, for the fields the source leaves undefined or null. */
module Wrappers {
  datatype Option<T> = None | Some(value: T)
}
