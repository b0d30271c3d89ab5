/** The optional value used for `Error::cause` and for decoding results. */
module Wrappers {
  datatype Option<+T> = None | Some(value: T)
}
