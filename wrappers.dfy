/** The optional value used where the source has a nullable or absent value. */
module Wrappers {
  datatype Option<+T> = None | Some(value: T)
}
