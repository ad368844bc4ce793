/** The value-or-nothing type the source spells `T | None`. */
module Optional {
  datatype Option<+T> = None | Some(value: T)
}
