/** The optional value every component uses where a value may be absent or a call may fail. */
module Wrappers {
  datatype Option<+T> = None | Some(value: T)
}
