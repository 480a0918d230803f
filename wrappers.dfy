/** Small failure-compatible wrappers shared by the modules of this model. */
module Wrappers {

  /** A value that may be absent; stands for JavaScript's `null` / `undefined`. */
  datatype Option<+T> = None | Some(value: T)

  /** The outcome of a JavaScript call that either returns normally or throws an `Error`. */
  datatype Outcome = Returned | Threw(message: string)
}
