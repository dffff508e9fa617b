/** The optional value used wherever the component holds "nothing yet" or a call may fail. */
module Wrappers {
  datatype Option<+T> = None | Some(value: T)
}
