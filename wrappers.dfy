/** The usual optional value, for a host-side reading that can fail. */
module Wrappers {
  datatype Option<+T> = None | Some(value: T)
}
