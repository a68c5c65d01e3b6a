/** The optional value used wherever the server reads a Map entry that may be missing. */
module Wrappers {

  datatype Option<T> = None | Some(value: T)
}
