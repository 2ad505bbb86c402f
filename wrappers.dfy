/** A value that may be absent, shared by the identifier search and the dialogs. */
module Wrappers {

  datatype Option<T> = None | Some(value: T)
}
