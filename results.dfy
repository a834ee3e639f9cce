/** Optional values and the outcome of a step that may raise a Python exception. */
module Results {

  datatype Option<+T> = None | Some(value: T)

  /** A step either finishes normally with a value or raises an exception whose text is `error`. */
  datatype Step<+T> = Done(value: T) | Raised(error: string)
}
