/** The optional value shared by both modules: Rust's `Option<T>`. */
module Wrappers {

  datatype Option<+T> = None | Some(value: T)
}
