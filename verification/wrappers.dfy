/** Python's optional values (`None` or a value) and the `or []` default. */
module Wrappers {

  /** An optional value: Python's `None` or a present value. */
  datatype Option<+T> = None | Some(value: T)

  /** The value inside `o`, or `default` when there is none (Python's `o or default`
      restricted to the None case). */
  function GetOr<T>(o: Option<T>, default: T): T
  {
    match o
    case Some(v) => v
    case None => default
  }
}
