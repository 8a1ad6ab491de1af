/** The optional value used across the model: a JavaScript `null`/`undefined` or a present value. */
module Options {
  datatype Option<T> = None | Some(value: T)
}
