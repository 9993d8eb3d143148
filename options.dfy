/** The optional value used for the page's `None`-or-value session entries. */
module Options {

  datatype Option<T> = None | Some(value: T)
}
