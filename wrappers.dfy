/** The optional value used for "no wake word crossed the threshold". */
module Wrappers {
  datatype Option<+T> = None | Some(value: T)
}
