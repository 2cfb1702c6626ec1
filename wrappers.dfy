/** The optional values the JavaScript source represents with `undefined`. */
module Wrappers {

  datatype Option<+T> = None | Some(value: T)
}
