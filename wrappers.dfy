/** The optional value the build script passes around (`Option<&str>` in Rust). */
module Wrappers {
  datatype Option<T> = None | Some(value: T)
}
