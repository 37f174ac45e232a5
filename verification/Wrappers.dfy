/** The optional value used wherever the programs use Python's None. */
module Wrappers {
  datatype Option<+T> = None | Some(value: T)
}
