/** Python's `None`-or-value, used for values that may be absent. */
module Optional {

  datatype Option<+T> = None | Some(value: T)
}
