/** Small shared vocabulary: an optional value (the source's `null`) and integer max/min. */
module Basics {

  /** A value that may be absent; `None` plays the part of a null reference. */
  datatype Option<+T> = None | Some(value: T)

  function Max(a: int, b: int): (m: int)
    ensures m >= a && m >= b && (m == a || m == b)
  {
    if a >= b then a else b
  }

  function Min(a: int, b: int): (m: int)
    ensures m <= a && m <= b && (m == a || m == b)
  {
    if a <= b then a else b
  }
}
