/** PHP's nullable arguments: a value or `null`. */
module Optional {

  datatype Option<+T> = None | Some(value: T)
}
