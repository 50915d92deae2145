/** Optional values: the model's stand-in for Python's `None` result and for
    the `ValueError` that `list.index` raises on a missing element. */
module Optional {

  datatype Option<+T> = None | Some(value: T)
}
