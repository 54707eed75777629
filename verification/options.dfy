/** The optional-value wrapper used for JavaScript fields that may be absent. */
module Options {

  /** `None` stands for a field that is absent (`undefined`) or a value that was never produced. */
  datatype Option<+T> = None | Some(value: T)
}
