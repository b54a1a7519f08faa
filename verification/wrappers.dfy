/** The optional-value datatype shared by the other modules. */
module Wrappers {

  /** A value that may be missing: a JavaScript `undefined`/`NaN` outcome. */
  datatype Option<+T> = None | Some(value: T)
}
