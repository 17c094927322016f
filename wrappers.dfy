/** The usual Some/None datatype, used for records that a filter may reject. */
module Wrappers {
  datatype Option<+T> = None | Some(value: T)
}
