/** The optional value used across the model where the source leaves a field `undefined`. */
module Wrappers {
  datatype Option<+T> = None | Some(value: T)
}
