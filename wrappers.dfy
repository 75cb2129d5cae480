/** The optional value used wherever the source stores `None` in an attribute. */
module Wrappers {
  datatype Option<+T> = None | Some(value: T)
}
