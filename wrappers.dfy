/** The optional value used for a reactive stream that completes with at most one element. */
module Wrappers {

  datatype Option<+T> = None | Some(value: T)
}
