/** Result types and ranges shared by the whole model. */
module Wrappers {
  datatype Option<+T> = None | Some(value: T)

  /** A Rust `Result` whose error carries no more than that the request was refused. */
  datatype Result<+T> = Ok(value: T) | Refused

  /** A computation that either finishes or stops at a failed `assert!`, `expect` or `unwrap`. */
  datatype Outcome<+T> = Done(value: T) | Panic

  const U64_MAX: nat := 0xFFFF_FFFF_FFFF_FFFF
}
