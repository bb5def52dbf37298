/** The optional value used wherever the driver stores `None` or a value. */
module Wrappers {

  datatype Option<+T> = None | Some(value: T)
}
