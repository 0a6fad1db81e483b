/** Option: a value that may be absent (Go's nil pointer, a JSON body that did not bind). */
module Wrappers {
  datatype Option<+T> = None | Some(value: T)
}
