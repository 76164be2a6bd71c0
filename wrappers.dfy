/** The Some/None datatype used wherever the source reads a value that may be
    absent (`undefined`, `null`, `NaN` or a missing key). */
module Wrappers {

  datatype Option<+T> = None | Some(value: T)
}
