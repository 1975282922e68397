/** Values that may be absent: a SQL NULL column, a JavaScript `null` or `undefined`. */
module Common {

  datatype Option<+T> = None | Some(value: T)
}
