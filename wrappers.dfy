/** The optional value used throughout the model: a JavaScript value that may be absent. */
module Wrappers {

  datatype Option<+T> = None | Some(value: T)
}
