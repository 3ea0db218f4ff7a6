/** The optional value used wherever the harness accepts `nil`. */
module Options {

  datatype Option<+T> = None | Some(value: T)
}
