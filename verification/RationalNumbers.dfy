/** `from_float` and `from_RationalNumber` in exact arithmetic: `float` is taken as a real
    number of the range of `float`, and `pow`, `log10`, `floor` as the mathematical functions. */
module RationalNumbers {
  import opened Types

  // ------------------------------------------------------------ decimal shifts

  /** `x * pow(10, n)`. */
  function Shift(x: real, n: int): real
    decreases if n < 0 then -n else n
  {
    if n == 0 then x else if n > 0 then 10.0 * Shift(x, n - 1) else Shift(x, n + 1) / 10.0
  }

  /** A shift is the product with a power of ten. */
  lemma {:induction false} ShiftIsProduct(x: real, n: int)
    ensures Shift(x, n) == x * Shift(1.0, n)
    decreases if n < 0 then -n else n
  {
    if n != 0 {
      ShiftIsProduct(x, if n > 0 then n - 1 else n + 1);
    }
  }

  lemma {:induction false} ShiftNext(x: real, n: int)
    ensures Shift(x, n + 1) == 10.0 * Shift(x, n)
  {
  }

  lemma {:induction false} ShiftAdd(x: real, a: int, b: int)
    ensures Shift(Shift(x, a), b) == Shift(x, a + b)
    decreases if b < 0 then -b else b
  {
    if b > 0 {
      ShiftAdd(x, a, b - 1);
      ShiftNext(x, a + b - 1);
    } else if b < 0 {
      ShiftAdd(x, a, b + 1);
      ShiftNext(x, a + b);
    }
  }

  lemma {:induction false} ShiftStrict(x: real, y: real, n: int)
    requires x < y
    ensures Shift(x, n) < Shift(y, n)
    decreases if n < 0 then -n else n
  {
    if n != 0 {
      ShiftStrict(x, y, if n > 0 then n - 1 else n + 1);
    }
  }

  lemma {:induction false} ShiftNegates(x: real, n: int)
    ensures Shift(-x, n) == -Shift(x, n)
    ensures Shift(0.0, n) == 0.0
    decreases if n < 0 then -n else n
  {
    if n != 0 {
      ShiftNegates(x, if n > 0 then n - 1 else n + 1);
    }
  }

  lemma {:induction false} ShiftSum(x: real, y: real, n: int)
    ensures Shift(x + y, n) == Shift(x, n) + Shift(y, n)
    decreases if n < 0 then -n else n
  {
    if n != 0 {
      ShiftSum(x, y, if n > 0 then n - 1 else n + 1);
    }
  }

  lemma {:induction false} ShiftThousand(n: int)
    ensures Shift(1000.0, n) == 1000.0 * Shift(1.0, n) == Shift(1.0, n + 3)
    ensures Shift(10000.0, n) == Shift(1.0, n + 4)
  {
    assert Shift(1.0, 3) == 1000.0 && Shift(1.0, 4) == 10000.0 by {
      ShiftNext(1.0, 0); ShiftNext(1.0, 1); ShiftNext(1.0, 2); ShiftNext(1.0, 3);
    }
    ShiftAdd(1.0, 3, n);
    ShiftAdd(1.0, 4, n);
    ShiftNext(1.0, n);
    ShiftNext(1.0, n + 1);
    ShiftNext(1.0, n + 2);
  }

  lemma {:induction false} ShiftOneMonotone(a: int, b: int)
    requires a <= b
    ensures 0.0 < Shift(1.0, a) <= Shift(1.0, b)
    decreases b - a
  {
    ShiftStrict(0.0, 1.0, a);
    ShiftNegates(0.0, a);
    if a < b {
      ShiftOneMonotone(a, b - 1);
      ShiftNext(1.0, b - 1);
    }
  }

  lemma {:induction false} ShiftInteger(i: int, k: nat)
    ensures Shift(i as real, k) == Shift(i as real, k).Floor as real
  {
    if k > 0 {
      ShiftInteger(i, k - 1);
      var n := Shift(i as real, k - 1).Floor;
      assert Shift(i as real, k) == (10 * n) as real;
    }
  }

  // ---------------------------------------------------------------- conversions

  function Abs(x: real): real {
    if x < 0.0 then -x else x
  }

  /** The number a `RationalNumber` stands for: `value * pow(10, exponent)`. */
  function ValueOf(r: Rational): real {
    Shift(r.value as real, r.exponent)
  }

  lemma {:induction false} ValueSign(r: Rational)
    ensures ValueOf(r) > 0.0 <==> r.value > 0
    ensures ValueOf(r) < 0.0 <==> r.value < 0
  {
    ShiftNegates(0.0, r.exponent);
    if r.value > 0 {
      ShiftStrict(0.0, r.value as real, r.exponent);
    } else if r.value < 0 {
      ShiftStrict(r.value as real, 0.0, r.exponent);
    }
  }

  predicate InDecade(a: real, e: int) {
    Shift(1.0, e) <= a < Shift(1.0, e + 1)
  }

  /** `floor(log10(a))`, characterised by the decade that holds `a`. */
  function Decade(a: real): (e: int)
    requires a > 0.0
    ensures InDecade(a, e)
  {
    if a >= 1.0 then DecadeUp(a) else DecadeDown(a)
  }

  function DecadeUp(a: real): (e: int)
    requires a >= 1.0
    ensures InDecade(a, e)
    decreases a.Floor
  {
    if a < 10.0 then
      ShiftNext(1.0, 0);
      0
    else
      var e := DecadeUp(a / 10.0);
      ShiftNext(1.0, e);
      ShiftNext(1.0, e + 1);
      e + 1
  }

  function DecadeDown(a: real): (e: int)
    requires 0.0 < a < 1.0
    ensures InDecade(a, e)
    decreases (1.0 / a).Floor
  {
    if a * 10.0 >= 1.0 then
      ShiftNext(1.0, -1);
      -1
    else
      var inverse := 1.0 / a;
      assert inverse >= 10.0;
      assert 1.0 / (a * 10.0) == inverse / 10.0;
      var e := DecadeDown(a * 10.0);
      ShiftNext(1.0, e - 1);
      ShiftNext(1.0, e);
      e - 1
  }

  lemma {:induction false} DecadeOrder(a: real, d: int, b: real, e: int)
    requires a <= b && InDecade(a, d) && InDecade(b, e)
    ensures d <= e
  {
    if e < d {
      ShiftOneMonotone(e + 1, d);
    }
  }

  /** Conversion to an integer type: toward zero. */
  function Truncate(x: real): int {
    if x >= 0.0 then x.Floor else -((-x).Floor)
  }

  /** Zero, or a magnitude between the smallest and the largest of type `float`. */
  predicate FloatRange(x: real) {
    x == 0.0 || Shift(1.0, -45) <= Abs(x) < Shift(1.0, 39)
  }

  lemma {:induction false} FloatDecade(x: real)
    requires x != 0.0 && FloatRange(x)
    ensures -45 <= Decade(Abs(x)) <= 38
  {
    var e := Decade(Abs(x));
    if e < -45 {
      ShiftOneMonotone(e + 1, -45);
    } else if e > 38 {
      ShiftOneMonotone(39, e);
    }
  }

  /** A magnitude shifted by `3 - decade` has four digits before the point. */
  lemma {:induction false} FourDigits(a: real)
    requires a > 0.0
    ensures 1000.0 <= Shift(a, 3 - Decade(a)) < 10000.0
  {
    var e := Decade(a);
    ShiftAdd(1.0, e, 3 - e);
    ShiftAdd(1.0, e + 1, 3 - e);
    ShiftThousand(0);
    ShiftStrict(a, Shift(1.0, e + 1), 3 - e);
    if Shift(1.0, e) < a {
      ShiftStrict(Shift(1.0, e), a, 3 - e);
    }
  }

  /** Four significant digits; no `int8_t` or `int16_t` conversion overflows. */
  function FromFloat(x: real): (r: Rational)
    requires FloatRange(x)
    ensures x == 0.0 ==> r == Rational(0, 0)
    ensures x > 0.0 ==> 1000 <= r.value <= 9999
    ensures x < 0.0 ==> -9999 <= r.value <= -1000
    ensures x != 0.0 ==> -48 <= r.exponent <= 35
  {
    if x == 0.0 then
      Rational(0, 0)
    else
      FloatDecade(x);
      FourDigits(Abs(x));
      var exponent := Decade(Abs(x)) - 3;
      ShiftNegates(Abs(x), -exponent);
      Rational(Truncate(Shift(x, -exponent)), exponent)
  }

  lemma {:induction false} FromFloatNegates(x: real)
    requires FloatRange(x)
    ensures FloatRange(-x)
    ensures ValueOf(FromFloat(-x)) == -ValueOf(FromFloat(x))
  {
    if x == 0.0 {
      assert -x == 0.0;
    } else {
      assert Abs(-x) == Abs(x);
      ShiftNegates(x, 3 - Decade(Abs(x)));
      assert FromFloat(-x).value == -FromFloat(x).value;
      ShiftNegates(FromFloat(x).value as real, FromFloat(x).exponent);
    }
  }

  /** Cutting off the digits after the point loses less than one unit of the last. */
  lemma {:induction false} CutOff(x: real, n: int)
    requires x > 0.0
    ensures var digits := Shift(x, -n);
      digits >= 0.0 && x - Shift(1.0, n) < Shift(digits.Floor as real, n) <= x
  {
    var digits := Shift(x, -n);
    ShiftNegates(0.0, -n);
    ShiftStrict(0.0, x, -n);
    var kept := digits.Floor as real;
    ShiftAdd(x, -n, n);
    ShiftSum(kept, digits - kept, n);
    assert kept + (digits - kept) == digits;
    ShiftNegates(0.0, n);
    ShiftStrict(digits - kept, 1.0, n);
    if kept < digits {
      ShiftStrict(0.0, digits - kept, n);
    }
  }

  /** What `FromFloat` keeps of a positive number, in the number's own decade. */
  lemma {:induction false} FromFloatPositive(x: real)
    requires FloatRange(x) && x > 0.0
    ensures FromFloat(x).value == Shift(x, 3 - Decade(x)).Floor
    ensures FromFloat(x).exponent == Decade(x) - 3
    ensures Shift(1.0, Decade(x)) <= ValueOf(FromFloat(x)) <= x
    ensures x - ValueOf(FromFloat(x)) < x / 1000.0
  {
    hide Shift;
    var e := Decade(x);
    FourDigits(x);
    CutOff(x, e - 3);
    ShiftThousand(e - 3);
    var kept := Shift(x, 3 - e).Floor as real;
    if 1000.0 < kept {
      ShiftStrict(1000.0, kept, e - 3);
    }
  }

  /** Truncation toward zero with relative error below one thousandth, sign kept. */
  lemma {:induction false} FromFloatError(x: real)
    requires FloatRange(x)
    ensures x == 0.0 <==> ValueOf(FromFloat(x)) == 0.0
    ensures x >= 0.0 ==> 0.0 <= ValueOf(FromFloat(x)) <= x
    ensures x <= 0.0 ==> x <= ValueOf(FromFloat(x)) <= 0.0
    ensures x != 0.0 ==> Abs(x - ValueOf(FromFloat(x))) < Abs(x) / 1000.0
  {
    if x > 0.0 {
      FromFloatPositive(x);
      ValueSign(FromFloat(x));
    } else if x < 0.0 {
      FromFloatNegates(x);
      FromFloatPositive(-x);
      ValueSign(FromFloat(x));
    } else {
      ShiftNegates(0.0, 0);
    }
  }

  lemma {:induction false} FromFloatMonotonePositive(x: real, y: real)
    requires FloatRange(x) && FloatRange(y) && 0.0 < x < y
    ensures ValueOf(FromFloat(x)) <= ValueOf(FromFloat(y))
  {
    FromFloatPositive(x);
    FromFloatPositive(y);
    var d, e := Decade(x), Decade(y);
    DecadeOrder(x, d, y, e);
    if d < e {
      ShiftOneMonotone(d + 1, e);
    } else {
      ShiftStrict(x, y, 3 - e);
      var v, w := FromFloat(x).value, FromFloat(y).value;
      assert v <= w;
      if v < w {
        ShiftStrict(v as real, w as real, e - 3);
      }
    }
  }

  /** Order is never inverted, within a decade and across decades and signs. */
  lemma {:induction false} FromFloatMonotone(x: real, y: real)
    requires FloatRange(x) && FloatRange(y) && x <= y
    ensures ValueOf(FromFloat(x)) <= ValueOf(FromFloat(y))
  {
    hide Shift, FromFloat;
    FromFloatError(x);
    FromFloatError(y);
    if 0.0 < x < y {
      FromFloatMonotonePositive(x, y);
    } else if x < y < 0.0 {
      FromFloatNegates(x);
      FromFloatNegates(y);
      FromFloatMonotonePositive(-y, -x);
    }
  }

  lemma {:induction false} RoundTripPositive(r: Rational)
    requires 0 < r.value <= 9999 && FloatRange(ValueOf(r))
    ensures ValueOf(FromFloat(ValueOf(r))) == ValueOf(r)
  {
    var x := ValueOf(r);
    ValueSign(r);
    var e := Decade(x);
    FromFloatPositive(x);
    if e >= r.exponent + 4 {
      // five digits before the point would be needed
      ShiftOneMonotone(r.exponent + 4, e);
      ShiftThousand(r.exponent);
      ShiftStrict(r.value as real, 10000.0, r.exponent);
      assert false;
    } else {
      // the shifted number is an integer, so nothing is cut off
      ShiftAdd(r.value as real, r.exponent, 3 - e);
      ShiftInteger(r.value, r.exponent + 3 - e);
      ShiftAdd(x, 3 - e, e - 3);
    }
  }

  lemma {:induction false} ZeroComesBack(r: Rational)
    requires r.value == 0
    ensures ValueOf(r) == 0.0 && ValueOf(FromFloat(ValueOf(r))) == 0.0
  {
    ShiftNegates(0.0, r.exponent);
    ShiftNegates(0.0, 0);
  }

  /** Numbers of at most four significant digits survive exactly. */
  lemma {:induction false} RoundTrip(r: Rational)
    requires -9999 <= r.value <= 9999 && FloatRange(ValueOf(r))
    ensures ValueOf(FromFloat(ValueOf(r))) == ValueOf(r)
  {
    hide Shift, FromFloat;
    if r.value > 0 {
      RoundTripPositive(r);
    } else if r.value < 0 {
      var s := Rational(-r.value, r.exponent);
      ShiftNegates(r.value as real, r.exponent);
      FromFloatNegates(ValueOf(r));
      RoundTripPositive(s);
    } else {
      ShiftNegates(0.0, r.exponent);
      ZeroComesBack(r);
    }
  }
}
