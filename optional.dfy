/** A value that may be absent: JavaScript's `null`, `undefined` and, for
    number parsing, `NaN`. */
module Optional {

  datatype Option<+T> = None | Some(value: T)
}
