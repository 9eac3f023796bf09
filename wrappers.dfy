/** The optional value used for every field that the server may or may not send. */
module Wrappers {

  datatype Option<+T> = None | Some(value: T)
}
