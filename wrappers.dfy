/** The optional value that the components use in place of `null`. */
module Wrappers {

  datatype Option<+T> = None | Some(value: T)
}
