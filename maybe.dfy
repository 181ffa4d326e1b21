/** An optional value: JavaScript's `null` / `undefined` against a present value. */
module Maybe {
  datatype Option<T> = None | Some(value: T)
}
