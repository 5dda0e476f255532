/** An optional value: `None` stands for JavaScript's `undefined` or `null`. */
module Options {

  datatype Option<+T> = None | Some(value: T)
}
