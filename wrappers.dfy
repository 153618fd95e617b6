/** The optional value returned by collaborators that may fail. */
module Wrappers {
  datatype Option<+T> = None | Some(value: T)
}
