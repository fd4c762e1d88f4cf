/** The optional value used for absent JSON fields and lookups that may miss. */
module Wrappers {
  datatype Option<+T> = None | Some(value: T)
}
