/** Rust's `Option`, as used by the viewer for decoded actions and the pending configuration. */
module Wrappers {

  datatype Option<+T> = None | Some(value: T)
}
