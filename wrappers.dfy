/** The optional value used for JavaScript's `null` / `undefined` in the model. */
module Wrappers {

  datatype Option<+T> = None | Some(value: T)
}
