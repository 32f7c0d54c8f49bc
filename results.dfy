/** Shared result shapes for the tools and the web handlers. */
module Results {

  /** A value that may be missing: Python's `None` versus a value. */
  datatype Option<T> = None | Some(value: T)

  /** The outcome of a call that may fail. From a client or an endpoint, `Err(m)` is an exception
      `e` raised with `str(e) == m`; from a tool, `Err(m)` is the `{"error": m}` object it returns. */
  datatype Result<T> = Ok(value: T) | Err(message: string)

  /** Python truthiness of an optional string, as in `if not api_key:`:
      an unset variable and an empty one are both "not configured". */
  predicate Present(v: Option<string>)
  {
    v.Some? && v.value != ""
  }
}
