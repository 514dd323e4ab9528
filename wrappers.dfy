/** The optional value Rust writes `Option<T>`. */
module Wrappers {
  datatype Option<+T> = None | Some(value: T)
}
