/** The optional value the lookups and searches return. */
module Wrappers {
  datatype Option<+T> = None | Some(value: T)
}
