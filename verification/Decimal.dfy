/** Rounding a double to decimal tenths (calibration.rs) in 128-bit integers: exact, ties
    to even, and never out of range for levels between -140 and 0 dB. */
module Decimal {
  import opened Wrappers
  import opened Numbers

  type u128 = x: int | 0 <= x < 0x1_0000_0000_0000_0000_0000_0000_0000_0000

  const HIDDEN_BIT: nat := 0x10_0000_0000_0000

  /** A finite double by its bits. */
  datatype Double = Double(negative: bool, field: nat, fraction: nat) {
    predicate Valid() {
      field < 0x7ff && fraction < HIDDEN_BIT
    }

    /** What the routine takes the number for: significand times two to the exponent. A
        subnormal is given a hidden bit it does not have. */
    function Exponent(): int { field - 1023 - 52 }

    function Significand(): nat { fraction + HIDDEN_BIT }

    predicate Zero() { field == 0 && fraction == 0 }
  }

  function Pow2(n: nat): (p: nat)
    ensures p > 0
  {
    if n == 0 then 1 else 2 * Pow2(n - 1)
  }

  lemma {:induction false} Pow2Add(a: nat, b: nat)
    ensures Pow2(a + b) == Pow2(a) * Pow2(b)
  {
    if a > 0 {
      Pow2Add(a - 1, b);
    }
  }

  lemma {:induction false} Pow2Grows(a: nat, b: nat)
    requires a <= b
    ensures Pow2(a) <= Pow2(b)
  {
    if a < b {
      Pow2Grows(a, b - 1);
    }
  }

  lemma SmallPowers()
    ensures Pow2(7) == 128 && Pow2(11) == 2048
  {
    assert Pow2(4) == 16;
    Pow2Add(4, 3);
    Pow2Add(4, 7);
  }

  lemma Powers()
    ensures Pow2(44) == 0x1000_0000_0000 && Pow2(58) == 0x400_0000_0000_0000
    ensures Pow2(127) == 0x8000_0000_0000_0000_0000_0000_0000_0000
  {
    SmallPowers();
    hide Pow2;
    Pow2Add(11, 11);
    Pow2Add(22, 22);
    Pow2Add(44, 7);
    Pow2Add(51, 7);
    Pow2Add(58, 58);
    Pow2Add(116, 11);
  }

  /** The magnitude as a fraction, numerator first. */
  function Numerator(d: Double): nat {
    if d.field == 0 then d.fraction
    else if d.Exponent() >= 0 then d.Significand() * Pow2(d.Exponent()) else d.Significand()
  }

  function Denominator(d: Double): (n: nat)
    ensures n > 0
  {
    if d.field == 0 then Pow2(1074) else if d.Exponent() >= 0 then 1 else Pow2(-d.Exponent())
  }

  function Magnitude(d: Double): real {
    Numerator(d) as real / Denominator(d) as real
  }

  /** Between -140 and 140. */
  predicate InRange(d: Double) {
    d.Valid() && Numerator(d) <= 140 * Denominator(d)
  }

  lemma ExponentInRange(d: Double)
    requires InRange(d) && d.field > 0
    ensures d.Exponent() <= -45
  {
    Powers();
    if d.Exponent() >= 0 {
      MulGrows(d.Significand(), Pow2(d.Exponent()));
    } else if -d.Exponent() < 45 {
      Pow2Grows(-d.Exponent(), 44);
    }
  }

  lemma ShiftInRange(shift: nat)
    requires shift <= 127
    ensures Pow2(shift) <= 0x8000_0000_0000_0000_0000_0000_0000_0000
  {
    Powers();
    Pow2Grows(shift, 127);
  }

  /** `round_tenth`: the number of tenths, under the sign of the argument. The types are
      the proof that no step overflows. */
  function RoundTenth(d: Double): (tenths: u128)
    requires InRange(d)
  {
    if d.Zero() then 0
    else
      var exponent := d.Exponent();
      var significand: u128 := d.Significand();
      var numerator: u128 := significand * 10;
      if exponent < -127 then 0
      else
        ExponentInRange(d);
        var shift: nat := -exponent;
        ShiftInRange(shift);
        var divisor: u128 := Pow2(shift);
        var integer: u128 := numerator / divisor;
        var remainder: u128 := numerator % divisor;
        QuotientSmall(numerator, divisor);
        integer + if remainder > divisor / 2 || (remainder == divisor / 2 && integer % 2 == 1) then 1 else 0
  }

  lemma {:induction false} MulGrows(a: nat, b: nat)
    requires b > 0
    ensures a * b >= a
  {
    if b > 1 {
      MulGrows(a, b - 1);
    }
  }

  lemma Division(a: nat, b: nat)
    requires b > 0
    ensures a == (a / b) * b + a % b
  {}

  lemma QuotientSmall(a: nat, b: nat)
    requires b > 0
    ensures a / b <= a && a == (a / b) * b + a % b
  {
    Division(a, b);
    MulGrows(a / b, b);
  }

  /** k is num / den rounded to the nearest integer, ties to even. */
  predicate NearestEven(k: int, num: int, den: int) {
    && -den <= 2 * (k * den - num) <= den
    && (2 * (k * den - num) == den || 2 * (k * den - num) == -den ==> k % 2 == 0)
  }

  lemma {:induction false} EvenPower(n: nat)
    requires n > 0
    ensures Pow2(n) % 2 == 0
  {
    var half := Pow2(n - 1);
    assert Pow2(n) == 2 * half;
    hide Pow2;
  }

  lemma TinyNearest(num: int, den: int)
    requires 0 <= 2 * num < den
    ensures NearestEven(0, num, den)
  {}

  lemma NormalNearest(d: Double)
    requires InRange(d) && d.field > 0 && -127 <= d.Exponent()
    ensures NearestEven(RoundTenth(d), d.Significand() * 10, Pow2(-d.Exponent()))
  {
    hide Pow2, NearestEven, InRange;
    ExponentInRange(d);
    var num, den := d.Significand() * 10, Pow2(-d.Exponent());
    EvenPower(-d.Exponent());
    Division(num, den);
    Halves(num / den, num, den, num % den);
  }

  /** The rounding is that of the exact binary value. */
  lemma RoundTenthNearest(d: Double)
    requires InRange(d)
    ensures NearestEven(RoundTenth(d), Numerator(d) * 10, Denominator(d))
  {
    hide Pow2, NearestEven;
    Powers();
    if d.field == 0 {
      Pow2Grows(58, 1074);
      TinyNearest(d.fraction * 10, Pow2(1074));
    } else {
      ExponentInRange(d);
      if d.Exponent() < -127 {
        Pow2Grows(58, -d.Exponent());
        TinyNearest(d.Significand() * 10, Pow2(-d.Exponent()));
      } else {
        NormalNearest(d);
      }
    }
  }

  /** Rounding a quotient up past half, and at half when odd. */
  lemma Halves(integer: nat, num: nat, den: nat, remainder: nat)
    requires den > 0 && den % 2 == 0 && remainder < den && num == integer * den + remainder
    ensures NearestEven(
      integer + if remainder > den / 2 || (remainder == den / 2 && integer % 2 == 1) then 1 else 0, num, den)
  {
    assert (integer + 1) * den == integer * den + den;
  }

  /** ... which as a real is the nearest number of tenths. */
  lemma RoundTenthReal(d: Double)
    requires InRange(d)
    ensures RoundTenth(d) == RoundEven(Magnitude(d) * 10.0)
  {
    hide RoundTenth, NearestEven, Numerator, Denominator;
    RoundTenthNearest(d);
    TimesTen(Numerator(d), Denominator(d));
    AsReal(RoundTenth(d), Numerator(d) * 10, Denominator(d), Magnitude(d) * 10.0);
  }

  lemma TimesTen(num: nat, den: nat)
    requires den > 0
    ensures (num as real / den as real) * 10.0 == (num * 10) as real / den as real
  {}

  lemma AsReal(k: int, num: nat, den: nat, x: real)
    requires den > 0 && NearestEven(k, num, den) && x == num as real / den as real
    ensures k == RoundEven(x)
  {
    hide RoundEven;
    Difference(k, num, den, x);
    AtMostHalf(k as real - x, den, k * den - num);
    AtMostHalf(x - k as real, den, num - k * den);
    NearestIsRoundEven(k, x);
  }

  /** A share of at most half of den is a half only when it is exactly half. */
  lemma AtMostHalf(y: real, den: int, m: int)
    requires den > 0 && y * den as real == m as real && 2 * m <= den
    ensures y <= 0.5 && (y == 0.5 ==> 2 * m == den)
  {
    Scaled(y, den as real);
    assert 2.0 * m as real == (2 * m) as real;
    if y == 0.5 {
      SameInt(2 * m, den);
    }
  }

  lemma SameInt(a: int, b: int)
    requires a as real == b as real
    ensures a == b
  {}

  lemma Difference(k: int, num: nat, den: nat, x: real)
    requires den > 0 && x == num as real / den as real
    ensures (k as real - x) * den as real == (k * den - num) as real
    ensures (x - k as real) * den as real == (num - k * den) as real
  {
    var d := den as real;
    Cancel(num as real, d);
    Apart(k as real, x, d);
    Product(k, den);
  }

  lemma Cancel(n: real, d: real)
    requires d > 0.0
    ensures (n / d) * d == n
  {}

  lemma Apart(k: real, x: real, d: real)
    ensures (k - x) * d == k * d - x * d && (x - k) * d == x * d - k * d
  {}

  lemma Product(k: int, den: nat)
    ensures (k * den) as real == k as real * den as real
  {}

  lemma Scaled(y: real, d: real)
    requires d > 0.0
    ensures y > 0.5 ==> 2.0 * (y * d) > d
    ensures y == 0.5 ==> 2.0 * (y * d) == d
  {
    if y > 0.5 {
      Positive(y - 0.5, d);
    }
  }

  lemma Positive(a: real, b: real)
    requires a > 0.0 && b > 0.0
    ensures a * b > 0.0
  {}

  lemma NearestIsRoundEven(k: int, x: real)
    requires -0.5 <= k as real - x <= 0.5
    requires k as real - x == 0.5 || k as real - x == -0.5 ==> k % 2 == 0
    ensures k == RoundEven(x)
  {
    var low := x.Floor;
    assert low as real <= x < (low + 1) as real;
    assert k == low || k == low + 1;
  }
}
