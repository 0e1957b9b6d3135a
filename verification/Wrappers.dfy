/** Values that may be absent, as the source's optional fields are. */
module Wrappers {
  datatype Option<+T> = None | Some(value: T)
}
