/** An optional value, used where a reverse lookup may find nothing. */
module Wrappers {

  datatype Option<+T> = None | Some(value: T)
}
