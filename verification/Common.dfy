/** Small shared vocabulary: an optional value, minimum, maximum and rounding up. */
module Common {

  datatype Option<+T> = None | Some(value: T)

  function Max(a: int, b: int): int {
    if a < b then b else a
  }

  function Min(a: int, b: int): int {
    if a < b then a else b
  }

  function MinReal(a: real, b: real): real {
    if a < b then a else b
  }

  function MaxReal(a: real, b: real): real {
    if a < b then b else a
  }

  function Ceil(x: real): (n: int)
    ensures n as real - 1.0 < x <= n as real
  {
    -(-x).Floor
  }
}
