/** A value that may be missing, for the source's nil pointers and zero times. */
module Options {

  datatype Option<T> = None | Some(value: T)
}
