/** The optional value that stands for JavaScript's `null` in the engine's results. */
module Wrappers {

  datatype Option<+T> = None | Some(value: T)
}
