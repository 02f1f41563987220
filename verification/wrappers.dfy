/** The optional value used wherever the launcher uses Rust's `Option`. */
module Wrappers {

  datatype Option<+T> = None | Some(value: T)
}
