/** An optional value: a cache that may still be empty, or a slice bound
    that may be omitted. */
module Options {

  datatype Option<T> = None | Some(value: T)
}
