/** The optional-value datatype used for the user id and the role read from the user record. */
module Options {

  /** `None` stands for a missing (null or undefined) value. */
  datatype Option<+T> = None | Some(value: T)
}
