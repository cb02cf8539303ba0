/** Small vocabulary shared by the other modules. */
module Prelude {

  datatype Option<+T> = None | Some(value: T)

  function Min(x: real, y: real): real {
    if x <= y then x else y
  }

  function Max(x: real, y: real): real {
    if x >= y then x else y
  }

  function Abs(x: real): real {
    if x < 0.0 then -x else x
  }

  /** round(delta / bar), halves to the even neighbour. */
  function RoundHalfEven(delta: int, bar: int): int
    requires bar >= 1
  {
    var q, r := delta / bar, delta % bar;
    if 2 * r < bar then q else if 2 * r > bar then q + 1 else if q % 2 == 0 then q else q + 1
  }

  lemma ProductNonNegative(x: real, y: real)
    requires x >= 0.0 && y >= 0.0
    ensures x * y >= 0.0
  {
  }
}
