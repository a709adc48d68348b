/** The optional value used wherever the process manager may or may not produce something. */
module Wrappers {

  datatype Option<+T> = None | Some(value: T)
}
