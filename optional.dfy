/** Ruby's `nil`-or-value results, as a datatype. */
module Optional {

  /** `None` stands for Ruby's `nil`. */
  datatype Option<+T> = None | Some(value: T)
}
