/** A value that may be missing: a nil pointer, a missing Redis key, an absent error. */
module Options {
  datatype Option<+T> = None | Some(value: T) {
    function Or(other: T): T {
      if Some? then value else other
    }
  }

  function Min(a: int, b: int): int {
    if a <= b then a else b
  }

  function Max(a: int, b: int): int {
    if a >= b then a else b
  }
}
