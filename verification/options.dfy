/** An optional value: stands for a JavaScript value that may be null or absent. */
module Options {

  datatype Option<+T> = None | Some(value: T)
}
