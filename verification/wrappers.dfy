/** The optional value used throughout the model, in place of JavaScript's
    `null` / `undefined` results. */
module Wrappers {

  datatype Option<+T> = None | Some(value: T)
}
