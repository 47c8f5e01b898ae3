/** The one helper type every module shares. */
module Basics {
  datatype Option<+T> = None | Some(value: T)
}
