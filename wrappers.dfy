/** The Some/None datatype that stands for C#'s nullable references (`string?`, `T?`). */
module Wrappers {

  datatype Option<+T> = None | Some(value: T)

}
