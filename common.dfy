/** Small wrapper types shared by the whole model. */
module Common {

  /** Python's `None` / a present value. */
  datatype Option<+T> = None | Some(value: T)

  /** The exceptions the modelled code can raise. */
  datatype PyError = ZeroDivisionError

  /** The outcome of a Python call: the value it returned, or the exception it raised. */
  datatype Outcome<+T> = Returned(value: T) | Raised(error: PyError)

  /** Python truthiness of an optional string: `None` and `""` are falsy. */
  predicate Truthy(s: Option<string>)
  {
    s.Some? && s.value != ""
  }
}
