/** Swift's optionals (`T?`), written as the usual Some/None datatype. */
module Wrappers {

  datatype Option<+T> = None | Some(value: T)
}
