/** The optional value used wherever the source has `T | null` or an optional argument. */
module Maybe {

  datatype Option<+T> = None | Some(value: T)
}
