/** The optional value used where the bot reads a row or a pointer that may be absent. */
module Wrappers {
  datatype Option<+T> = None | Some(value: T)
}
