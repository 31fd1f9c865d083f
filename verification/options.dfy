/** The optional value used wherever the JavaScript code reads a missing
    field or a missing map entry as `undefined`. */
module Options {
  datatype Option<+T> = None | Some(value: T)
}
