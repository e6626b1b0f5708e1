/** An optional value: the source's nil pointers, missing map entries and failed conversions. */
module Options {
  datatype Option<T> = None | Some(value: T)
}
