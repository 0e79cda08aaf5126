/** The optional value used wherever the script sees a `None`. */
module Wrappers {
  datatype Option<+T> = None | Some(value: T)
}
