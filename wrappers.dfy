/** The optional value used throughout the model in place of Go's nil. */
module Wrappers {

  datatype Option<+T> = None | Some(value: T)
}
