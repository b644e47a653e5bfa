/** An optional value: the result of an operation that can fail without a reason. */
module Wrappers {

  datatype Option<+T> = None | Some(value: T)
}
