/** The optional value used for the flock's goal (Rust's `Option`). */
module Options {

  datatype Option<+T> = None | Some(value: T)
}
