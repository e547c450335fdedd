/** The optional value shared by every module: a dict lookup that may miss,
    a file that may be absent, a field that may be left out. */
module Options {
  datatype Option<T> = None | Some(value: T)
}
