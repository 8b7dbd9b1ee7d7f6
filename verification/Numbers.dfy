/** Clamping and rounding as the crates' floating point does them, over exact reals. */
module Numbers {

  function Clamp(x: real, lo: real, hi: real): real
    requires lo <= hi
  {
    if x < lo then lo else if x > hi then hi else x
  }

  function Within(v: int, lo: int, hi: int): int
    requires lo <= hi
  {
    if v < lo then lo else if v > hi then hi else v
  }

  /** The `as` cast of a float: truncation toward zero. */
  function Trunc(x: real): int {
    if x >= 0.0 then x.Floor else -(-x).Floor
  }

  function RoundEven(x: real): int {
    var low := x.Floor;
    var rest := x - low as real;
    if rest < 0.5 || (rest == 0.5 && low % 2 == 0) then low else low + 1
  }

  /** Nearest integer, and the even one of two. */
  lemma RoundEvenNearest(x: real)
    ensures -0.5 <= RoundEven(x) as real - x <= 0.5
    ensures RoundEven(x) as real - x == 0.5 || RoundEven(x) as real - x == -0.5 ==> RoundEven(x) % 2 == 0
  {}

  lemma RoundEvenGrows(x: real, y: real)
    requires x <= y
    ensures RoundEven(x) <= RoundEven(y)
  {
    assert x.Floor <= y.Floor;
  }
}
