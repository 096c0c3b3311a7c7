/** Option values, for the arguments the firmware leaves as `None`. */
module Wrappers {
  datatype Option<+T> = None | Some(value: T)
}
