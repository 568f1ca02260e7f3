/** A value that may be absent: used where the script raises an exception
    (a TypeError, KeyError or ValueError) instead of producing a result. */
module Wrappers {
  datatype Option<+T> = None | Some(value: T)
}
