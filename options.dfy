/** An optional value: the model's stand-in for a JavaScript `null` or empty state field. */
module Options {
  datatype Option<+T> = None | Some(value: T)
}
