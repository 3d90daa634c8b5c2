/** Option, used for values the source may leave `undefined` and for a failed parse. */
module Wrappers {

  datatype Option<+T> = None | Some(value: T)
}
