/** Optional values: a JavaScript field that may be absent, a nullable state variable. */
module Options {

  datatype Option<+T> = None | Some(value: T)
}
