/** An optional value: Ruby's `nil` or a present value. */
module Options {

  datatype Option<+T> = None | Some(value: T)
}
