/** The absent-or-present value used wherever the source returns `null` or `undefined`. */
module Options {

  datatype Option<+T> = None | Some(value: T)
}
