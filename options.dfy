/** The result of one `next` call: an item, or the end signal. */
module Options {

  datatype Option<+T> = None | Some(value: T)
}
