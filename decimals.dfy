/** An exact decimal number in the shape of java.math.BigDecimal: an unscaled
    integer and a scale, denoting unscaled / 10^scale.  Two decimals with the
    same numeric value but different scales (100 and 100.0) are different
    values, as they are for BigDecimal.equals; compareTo-style comparison
    looks at the numeric value only. */
module Decimals {

  datatype Decimal = Decimal(unscaled: int, scale: nat)

  /** BigDecimal.ZERO */
  const Zero: Decimal := Decimal(0, 0)

  /** 10^n */
  function Pow10(n: nat): (r: nat)
    ensures r >= 1
    ensures n > 0 ==> r >= 10
  {
    if n == 0 then 1 else 10 * Pow10(n - 1)
  }

  lemma {:induction false} Pow10Add(a: nat, b: nat)
    ensures Pow10(a + b) == Pow10(a) * Pow10(b)
  {
    if b > 0 {
      Pow10Add(a, b - 1);
      calc {
        Pow10(a + b);
        10 * Pow10(a + b - 1);
        10 * (Pow10(a) * Pow10(b - 1));
        Pow10(a) * (10 * Pow10(b - 1));
        Pow10(a) * Pow10(b);
      }
    }
  }

  function Max(a: nat, b: nat): (r: nat)
    ensures r >= a && r >= b && (r == a || r == b)
  {
    if a < b then b else a
  }

  /** The numeric value a decimal denotes. */
  function Value(d: Decimal): real
  {
    d.unscaled as real / Pow10(d.scale) as real
  }

  /** Multiplying numerator and denominator by the same positive factor keeps a quotient. */
  lemma ScaleQuotient(u: int, p: nat, q: nat)
    requires p >= 1 && q >= 1
    ensures (u * q) as real / (p * q) as real == u as real / p as real
  {
    var x := u as real / p as real;
    assert u as real == x * p as real;
    assert (u * q) as real == x * (p as real * q as real);
    assert (p * q) as real == p as real * q as real;
  }

  /** The same value written with a larger scale (trailing zeros added). */
  function Rescale(d: Decimal, s: nat): (r: Decimal)
    requires d.scale <= s
    ensures r.scale == s
    ensures Value(r) == Value(d)
  {
    Pow10Add(d.scale, s - d.scale);
    ScaleQuotient(d.unscaled, Pow10(d.scale), Pow10(s - d.scale));
    Decimal(d.unscaled * Pow10(s - d.scale), s)
  }

  /** At a fixed positive denominator, quotients add and subtract as their numerators do. */
  lemma QuotientSum(x: int, y: int, p: nat)
    requires p >= 1
    ensures (x + y) as real / p as real == x as real / p as real + y as real / p as real
    ensures (x - y) as real / p as real == x as real / p as real - y as real / p as real
  {
    var qx, qy := x as real / p as real, y as real / p as real;
    assert x as real == qx * p as real;
    assert y as real == qy * p as real;
    assert (x + y) as real == (qx + qy) * p as real;
    assert (x - y) as real == (qx - qy) * p as real;
  }

  /** BigDecimal.add: exact sum, with scale max(a.scale, b.scale). */
  function Add(a: Decimal, b: Decimal): (r: Decimal)
    ensures r.scale == Max(a.scale, b.scale)
    ensures Value(r) == Value(a) + Value(b)
  {
    var s := Max(a.scale, b.scale);
    var x, y := Rescale(a, s), Rescale(b, s);
    QuotientSum(x.unscaled, y.unscaled, Pow10(s));
    Decimal(x.unscaled + y.unscaled, s)
  }

  /** BigDecimal.subtract: exact difference, with scale max(a.scale, b.scale). */
  function Subtract(a: Decimal, b: Decimal): (r: Decimal)
    ensures r.scale == Max(a.scale, b.scale)
    ensures Value(r) == Value(a) - Value(b)
  {
    var s := Max(a.scale, b.scale);
    var x, y := Rescale(a, s), Rescale(b, s);
    QuotientSum(x.unscaled, y.unscaled, Pow10(s));
    Decimal(x.unscaled - y.unscaled, s)
  }

  /** At a fixed positive denominator, comparing numerators compares quotients. */
  lemma QuotientOrder(x: int, y: int, p: nat)
    requires p >= 1
    ensures x < y <==> x as real / p as real < y as real / p as real
    ensures x == y <==> x as real / p as real == y as real / p as real
  {
    var qx, qy := x as real / p as real, y as real / p as real;
    assert x as real == qx * p as real;
    assert y as real == qy * p as real;
    if qx < qy {
      assert qx * p as real < qy * p as real;
    }
    if qy < qx {
      assert qy * p as real < qx * p as real;
    }
  }

  /** BigDecimal.compareTo: -1, 0 or 1 as a is numerically less than, equal
      to or greater than b, whatever their scales. */
  function Compare(a: Decimal, b: Decimal): (r: int)
    ensures -1 <= r <= 1
    ensures r < 0 <==> Value(a) < Value(b)
    ensures r == 0 <==> Value(a) == Value(b)
    ensures r > 0 <==> Value(a) > Value(b)
  {
    var s := Max(a.scale, b.scale);
    var x, y := Rescale(a, s), Rescale(b, s);
    QuotientOrder(x.unscaled, y.unscaled, Pow10(s));
    QuotientOrder(y.unscaled, x.unscaled, Pow10(s));
    if x.unscaled < y.unscaled then -1
    else if x.unscaled == y.unscaled then 0
    else 1
  }

  /** Euclidean division of a natural number by a positive one. */
  lemma DivBounds(n: nat, p: nat)
    requires p >= 1
    ensures 0 <= n / p
    ensures (n / p) * p <= n < (n / p + 1) * p
  {
    assert n == (n / p) * p + n % p;
    assert 0 <= n % p < p;
  }

  /** BigDecimal.toBigInteger: the integer part, truncated toward zero. */
  function IntegerPart(d: Decimal): (r: int)
    ensures d.unscaled >= 0 ==> 0 <= r && r * Pow10(d.scale) <= d.unscaled < (r + 1) * Pow10(d.scale)
    ensures d.unscaled < 0 ==> r <= 0 && (r - 1) * Pow10(d.scale) < d.unscaled <= r * Pow10(d.scale)
  {
    var p := Pow10(d.scale);
    var n := if d.unscaled >= 0 then d.unscaled else -d.unscaled;
    var q := n / p;
    DivBounds(n, p);
    if d.unscaled >= 0 then q else -q
  }

  const TwoTo31: int := 0x8000_0000
  const TwoTo32: int := 0x1_0000_0000

  /** The low-order 32 bits of x read as a two's-complement Java int. */
  function Wrap32(x: int): (r: int)
    ensures -TwoTo31 <= r < TwoTo31
    ensures (x - r) % TwoTo32 == 0
    ensures -TwoTo31 <= x < TwoTo31 ==> r == x
  {
    (x + TwoTo31) % TwoTo32 - TwoTo31
  }

  /** BigDecimal.intValue: the integer part, keeping only its low 32 bits. */
  function IntValue(d: Decimal): (r: int)
    ensures -TwoTo31 <= r < TwoTo31
    ensures (IntegerPart(d) - r) % TwoTo32 == 0
    ensures -TwoTo31 <= IntegerPart(d) < TwoTo31 ==> r == IntegerPart(d)
  {
    Wrap32(IntegerPart(d))
  }

  /** Decimals of one scale are equal exactly when their values are. */
  lemma SameScaleSameValue(a: Decimal, b: Decimal)
    requires a.scale == b.scale
    ensures a == b <==> Value(a) == Value(b)
  {
    QuotientOrder(a.unscaled, b.unscaled, Pow10(a.scale));
  }

  /** equals (scale-sensitive) implies compareTo == 0, but not conversely:
      100 and 100.0 compare equal and are not equal. */
  lemma EqualityIsScaleSensitive()
    ensures Compare(Decimal(100, 0), Decimal(1000, 1)) == 0
    ensures Decimal(100, 0) != Decimal(1000, 1)
  {
    assert Value(Decimal(1000, 1)) == 1000.0 / 10.0;
  }

  /** Adding or subtracting ZERO changes neither value nor scale. */
  lemma ZeroIsNeutral(a: Decimal)
    ensures Add(a, Zero) == a
    ensures Subtract(a, Zero) == a
  {
    SameScaleSameValue(Add(a, Zero), a);
    SameScaleSameValue(Subtract(a, Zero), a);
  }

  /** Adding m and then subtracting it gives back the numeric value of s; the
      result is the very same BigDecimal exactly when m's scale does not exceed
      s's, since otherwise the scale has grown. */
  lemma AddThenSubtract(s: Decimal, m: Decimal)
    ensures Compare(Subtract(Add(s, m), m), s) == 0
    ensures Subtract(Add(s, m), m).scale == Max(s.scale, m.scale)
    ensures Subtract(Add(s, m), m) == s <==> m.scale <= s.scale
  {
    var r := Subtract(Add(s, m), m);
    if m.scale <= s.scale {
      SameScaleSameValue(r, s);
    }
  }

  /** Subtracting m from one amount and adding it to another keeps the sum's value. */
  lemma MoveConservesSum(a: Decimal, b: Decimal, m: Decimal)
    ensures Compare(Add(Subtract(a, m), Add(b, m)), Add(a, b)) == 0
  {
  }
}
