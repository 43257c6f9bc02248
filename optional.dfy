/** Python's `None`-or-value fields of the session record. */
module Optional {

  datatype Option<+T> = None | Some(value: T)
}
