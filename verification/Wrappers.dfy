/** A value that may be absent: the source's null pointers. */
module Wrappers {

  datatype Option<+T> = None | Some(value: T)
}
