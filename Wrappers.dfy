/** The optional value used for the fields that may hold Python's `None`. */
module Wrappers {

  datatype Option<+T> = None | Some(value: T)
}
