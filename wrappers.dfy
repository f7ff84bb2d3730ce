/** An optional value, standing for JavaScript's `null` alongside a real value. */
module Wrappers {
  datatype Option<T> = None | Some(value: T)
}
