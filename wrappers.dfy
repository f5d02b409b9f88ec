/** Kotlin's nullable values, as an explicit option. */
module Wrappers {

  datatype Option<+T> = None | Some(value: T)
}
