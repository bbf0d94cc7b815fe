/** The optional value used for every nullable field and every lookup that can miss. */
module Wrappers {
  datatype Option<+T> = None | Some(value: T)
}
