/** The optional value used for JavaScript's `undefined` results and `NaN` numbers. */
module Wrappers {

  datatype Option<T> = None | Some(value: T)
}
