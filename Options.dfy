/** The optional value used for lookups that may find nothing: a missing
    storage key, an unrecognised stored string, an element without a parent. */
module Options {
  datatype Option<T> = None | Some(value: T)
}
