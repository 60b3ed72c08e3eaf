/** The Some/None datatype used wherever the script holds a value that may be absent. */
module Wrappers {

  datatype Option<+T> = None | Some(value: T)

}
