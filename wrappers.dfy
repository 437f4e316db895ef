/** The optional value that stands for a TypeScript field declared with `?`. */
module Wrappers {
  datatype Option<+T> = None | Some(value: T)
}
