/** The optional value used for a handle that may be `null`. */
module Wrappers {

  datatype Option<+T> = None | Some(value: T)
}
