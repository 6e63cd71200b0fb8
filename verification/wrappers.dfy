/** The optional value used where the monitor may or may not produce something. */
module Wrappers {
  datatype Option<+T> = None | Some(value: T)
}
