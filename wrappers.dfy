/** Option, for the places where the tool answers "a path, or null". */
module Wrappers {

  datatype Option<+T> = None | Some(value: T)
}
