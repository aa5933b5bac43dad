/** The optional-value type used throughout the model. */
module Wrappers {

  /** `None` stands for "nothing", `Some(v)` for a present value `v`. */
  datatype Option<+T> = None | Some(value: T)
}
