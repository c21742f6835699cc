/** Small failure-carrying datatype shared by the other modules. */
module Wrappers {

  /** `None` stands for Go's nil (no error, no value); `Some` carries the value. */
  datatype Option<+T> = None | Some(value: T)
}
