/** Option, for values that may be missing or operations that may fail. */
module Wrappers {

  datatype Option<+T> = None | Some(value: T)
}
