/** The absent-or-present value the source writes as Python's `None`. */
module Optional {

  datatype Option<+T> = None | Some(value: T)

}
