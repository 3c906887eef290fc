/** A value or nothing: an API result, a map lookup, SQL's NULL. */
module Options {

  datatype Option<+T> = None | Some(value: T)
}
