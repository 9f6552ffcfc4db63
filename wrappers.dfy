/** The optional value used wherever the scripts or the SDK can fail. */
module Wrappers {
  datatype Option<+T> = None | Some(value: T)
}
