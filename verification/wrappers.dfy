/** The optional value used wherever the portal holds `T | null` or a value that may be absent. */
module Wrappers {

  datatype Option<+T> = None | Some(value: T)
}
