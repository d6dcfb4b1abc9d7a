/** The optional-value datatype used throughout the model. */
module Wrappers {

  /** `None` stands for JavaScript's `null` / `undefined` where the client passes or returns "nothing". */
  datatype Option<+T> = None | Some(value: T)
}
