/** Small value wrappers shared by every module of the model. */
module Wrappers {

  /** A value that may be absent: JavaScript's `null`/`undefined`, or a missing JSON field. */
  datatype Option<+T> = None | Some(value: T)

  /**
   * How a JavaScript call ended: it returned a value normally, or it threw
   * (a `TypeError` from reading a property of `undefined`, say).
   */
  datatype Completion<+T> = Normal(value: T) | Abrupt
}
