/** An optional value: an absent property, a missing row, a null column. */
module Options {
  datatype Option<+T> = None | Some(value: T)
}
