/** The optional value used for the pending timer and the optional scroll timestamp. */
module Wrappers {
  datatype Option<+T> = None | Some(value: T)
}
