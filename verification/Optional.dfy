/** A value that may be missing: a null pointer, an undecided outcome, an unlinked entry. */
module Optional {

  datatype Option<+T> = None | Some(value: T)
}
