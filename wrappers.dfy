/** The optional value: a JavaScript `null` or `undefined` result, or a present one. */
module Wrappers {

  datatype Option<+T> = None | Some(value: T)
}
