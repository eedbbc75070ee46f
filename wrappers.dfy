/** The usual optional value, used for nullable fields of the source. */
module Wrappers {
  datatype Option<+T> = None | Some(value: T)
}
