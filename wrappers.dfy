/** The optional value used wherever the source returns `None` or an absent result. */
module Wrappers {

  datatype Option<+T> = None | Some(value: T)
}
