/** The optional value used for nullable columns and headers (Python's None). */
module Wrappers {
  datatype Option<+T> = None | Some(value: T)
}
