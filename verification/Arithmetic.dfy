/** Facts about division by a variable, which the solver does not find alone. */
module Arithmetic {

  lemma MulMonotone(a: int, b: int, d: nat)
    requires a <= b
    ensures a * d <= b * d
  {
  }

  lemma SmallMultiple(k: int, d: int)
    requires d > 0 && -d < k * d < d
    ensures k == 0
  {
    assert k >= 1 ==> k * d >= d;
    assert k <= -1 ==> k * d <= -d;
  }

  /** Quotient and remainder are unique. */
  lemma DivIs(x: int, d: int, q: int, r: int)
    requires d > 0 && 0 <= r < d && x == q * d + r
    ensures x / d == q && x % d == r
  {
    var k := x / d - q;
    assert k * d == r - x % d by {
      assert x == (x / d) * d + x % d;
      assert k * d == (x / d) * d - q * d;
    }
    SmallMultiple(k, d);
  }

  lemma DivNonNegative(x: nat, d: int)
    requires d > 0
    ensures x / d >= 0 && 0 <= x % d < d && x / d * d + x % d == x
  {
    var q := x / d;
    assert q <= -1 ==> q * d <= -d;
    assert x == q * d + x % d;
  }

  lemma MulDiv(q: int, d: int)
    requires d > 0
    ensures d * q / d == q
  {
    DivIs(d * q, d, q, 0);
  }

  lemma AddMultiple(x: nat, q: int, d: int)
    requires d > 0
    ensures (q * d + x) / d == q + x / d
  {
    DivNonNegative(x, d);
    assert (q + x / d) * d == q * d + x / d * d;
    DivIs(q * d + x, d, q + x / d, x % d);
  }

  lemma DivMonotone(a: nat, b: nat, d: int)
    requires a <= b && d > 0
    ensures a / d <= b / d
  {
    DivNonNegative(a, d);
    DivNonNegative(b, d);
    var k := a / d - b / d;
    assert k * d == (a / d) * d - (b / d) * d;
    assert k >= 1 ==> k * d >= d;
  }

  /** Exceeding a quotient is exceeding the dividend. */
  lemma OverQuotient(v: nat, d: int, limit: nat)
    requires d > 0
    ensures v > limit / d <==> v * d > limit
  {
    var q := limit / d;
    DivNonNegative(limit, d);
    assert (q + 1) * d == q * d + d;
    if v > q {
      MulMonotone(q + 1, v, d);
    } else {
      MulMonotone(v, q, d);
    }
  }
}
