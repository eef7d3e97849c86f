/** The optional value used wherever the Python code returns either a value or nothing. */
module Wrappers {

  datatype Option<+T> = None | Some(value: T)
}
