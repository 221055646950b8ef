/** Optional values and results, shared by the component models. */
module Options {
  datatype Option<+T> = None | Some(value: T)

  /** A Python call that either returns or raises. */
  datatype Result<+T> = Ok(value: T) | Raised(error: string)
}
