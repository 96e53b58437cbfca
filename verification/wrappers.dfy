/** The optional value used wherever the source returns a pointer that may be nil or a comma-ok pair. */
module Wrappers {
  datatype Option<+T> = None | Some(value: T)
}
