/** Option, for the program's `Option` values and for "nothing reported". */
module Wrappers {
  datatype Option<+T> = None | Some(value: T)
}
