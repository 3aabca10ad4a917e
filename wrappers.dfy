/** The optional value used where the source works with a sentinel or a null. */
module Wrappers {
  datatype Option<+T> = None | Some(value: T)
}
