/** The optional-value wrapper shared by every module of the model. */
module Wrappers {
  /** Python's `None` or a present value. */
  datatype Option<+T> = None | Some(value: T)
}
