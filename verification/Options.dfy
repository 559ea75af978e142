/** A value that may be absent: Go's nil pointers, missing map entries and unset optional fields. */
module Options {
  datatype Option<+T> = None | Some(value: T)
}
