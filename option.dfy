/** The optional value used wherever the source returns `null`/`undefined` or finds nothing. */
module Optional {

  datatype Option<+T> = None | Some(value: T)
}
