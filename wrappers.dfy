/** The Option datatype used for every parse that can fail: Python raises
    ValueError or IndexError there, and the callers catch it. */
module Wrappers {

  datatype Option<+T> = None | Some(value: T)
}
