/** The usual optional value, standing for JavaScript's `null` / `NaN` results. */
module Wrappers {
  datatype Option<+T> = None | Some(value: T)
}
