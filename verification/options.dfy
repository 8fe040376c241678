/** An optional value, shared by the card-number and summary readers. */
module Options {

  datatype Option<T> = None | Some(value: T)
}
