/** A result that may be missing: an index, where the code has a pointer or NULL. */
module Options {
  datatype Option = None | Some(id: nat)
}
