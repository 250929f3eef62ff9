/** Go's nil-able values (a nil `error`, an absent error result) as an Option. */
module Wrappers {
  datatype Option<+T> = None | Some(value: T)
}
