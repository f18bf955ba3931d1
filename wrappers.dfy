/** Rust's Option, used for header lookups, `slice.get(i)` and replies that may be absent. */
module Wrappers {

  datatype Option<+T> = None | Some(value: T)
}
