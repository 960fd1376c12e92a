/** Optional values: a C pointer that may be null becomes an `Option`. */
module Options {

  datatype Option<+T> = None | Some(value: T)
}
