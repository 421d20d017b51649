/** The optional value used for Go's nil pointers and absent protobuf fields. */
module Wrappers {

  datatype Option<+T> = None | Some(value: T)
}
