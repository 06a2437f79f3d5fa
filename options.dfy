/** The optional value used wherever the library returns `string | undefined`. */
module Options {

  datatype Option<+T> = None | Some(value: T)
}
