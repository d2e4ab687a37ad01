/** An optional value: `None` stands for JavaScript's `null` or `undefined`. */
module Optional {
  datatype Option<+T> = None | Some(value: T)
}
