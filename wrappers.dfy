/** The optional value used for nullable columns, absent headers and lookups. */
module Wrappers {
  datatype Option<T> = None | Some(value: T)
}
