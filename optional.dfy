/** A value that may be absent: a JavaScript field that has not been assigned yet (`undefined`). */
module Optional {
  datatype Option<T> = None | Some(value: T)
}
