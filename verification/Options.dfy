/** The optional value used for every nullable field of the source's records. */
module Options {

  datatype Option<+T> = None | Some(value: T)
}
