/** The Some/None datatype that stands in for C#'s nullable references and nullable values. */
module Wrappers {

  datatype Option<+T> = None | Some(value: T)
}
