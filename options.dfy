/** Go's "value or nil" results: an error that may be nil, a result that may be absent. */
module Options {

  datatype Option<+T> = None | Some(value: T)
}
