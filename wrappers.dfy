/** The optional value used wherever the JavaScript source holds `null` or `undefined`. */
module Wrappers {
  datatype Option<T> = None | Some(value: T)
}
