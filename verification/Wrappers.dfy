/** The optional value used where the original returns a nil pointer or a second `ok` result. */
module Wrappers {
  datatype Option<+T> = None | Some(value: T)
}
