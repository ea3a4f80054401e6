/** Optional values. A nullable pointer or platform handle is `None` when null. */
module Options {

  datatype Option<T> = None | Some(value: T)
}
