/** Small value wrappers shared by the model. */
module Wrappers {

  /** A value that may be absent: TypeScript's `T | null` (or `undefined`). */
  datatype Option<+T> = None | Some(value: T)

  /**
   * The outcome of one remote call. The client catches every failure in the
   * same way and never looks at its cause, so `Failed` carries nothing.
   */
  datatype Remote<+T> = Ok(value: T) | Failed
}
