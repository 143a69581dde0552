/** The Option type used for "parsed or not", "found or not". */
module Wrappers {

  datatype Option<+T> = None | Some(value: T)
}
