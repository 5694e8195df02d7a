/** The optional value used for headers and lookups that may be absent. */
module Wrappers {

  datatype Option<+T> = None | Some(value: T)
}
