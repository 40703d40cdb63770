/** Optional values, standing for Python's "value or nothing" results
    (a parse that may fail, a service call that may raise). */
module Options {
  datatype Option<+T> = None | Some(value: T)
}
