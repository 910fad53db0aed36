/** Option type for ParseInt's result. */
module Wrappers {
  datatype Option<+T> = None | Some(value: T)
}
