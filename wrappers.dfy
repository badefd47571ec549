/** The optional value used for nullable state cells and for effects that may not fire. */
module Wrappers {
  datatype Option<T> = None | Some(value: T)
}
