/** Optional values, for the fields and results that may be None in the original. */
module Options {

  datatype Option<+T> = None | Some(value: T)
}
