/** Small option type shared by the modules of this model. */
module Wrappers {
  /** `None` stands for JavaScript's `null` / `undefined` where the source tests for it. */
  datatype Option<+T> = None | Some(value: T)
}
