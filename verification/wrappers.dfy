/** The optional value used for nullable pointers of the driver (a channel handle, a name). */
module Wrappers {

  datatype Option<+T> = None | Some(value: T)
}
