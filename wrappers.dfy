/** The optional value used for fields that the source may leave undefined. */
module Wrappers {

  datatype Option<+T> = None | Some(value: T)
}
