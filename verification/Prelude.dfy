/** Small shared vocabulary. */
module Prelude {
  datatype Option<+T> = None | Some(value: T)

  function Min(a: int, b: int): int {
    if a <= b then a else b
  }

  function Max(a: int, b: int): int {
    if a >= b then a else b
  }

  function Or(o: Option<int>, default: int): int {
    match o
    case None => default
    case Some(n) => n
  }

  /** The larger of a value and an optional one. */
  function MaxOpt(a: int, b: Option<int>): int {
    match b
    case None => a
    case Some(n) => Max(a, n)
  }
}
