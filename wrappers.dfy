/** Go's nil-able references (a nil `error`, an absent value), as an Option. */
module Wrappers {

  datatype Option<+T> = None | Some(value: T)
}
