/** The usual optional-value datatype, used for fields that a request body may leave out. */
module Wrappers {

  datatype Option<+T> = None | Some(value: T)
}
