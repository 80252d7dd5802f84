/** Result shapes shared by the whole model. */
module Options {

  /** A value that may be missing: Rust's `Option`. */
  datatype Option<+T> = None | Some(value: T)

  /** A value or a failure whose message is not modelled: Rust's `anyhow::Result`. */
  datatype Result<+T> = Ok(value: T) | Err
}
