/** Decimal digit strings over bytes. */
module Digits {

  type byte = b: int | 0 <= b < 256

  const ZERO: byte := 48
  const DOT: byte := 46

  predicate IsDigit(b: byte) {
    ZERO <= b <= 57
  }

  predicate AllDigits(s: seq<byte>) {
    forall i :: 0 <= i < |s| ==> IsDigit(s[i])
  }

  function Pow10(k: nat): (p: nat)
    ensures p > 0
  {
    if k == 0 then 1 else 10 * Pow10(k - 1)
  }

  /** The number a digit string denotes; the empty string denotes 0. */
  function Num(s: seq<byte>): (n: nat)
    requires AllDigits(s)
  {
    if s == [] then 0 else 10 * Num(s[..|s| - 1]) + (s[|s| - 1] - ZERO)
  }

  /** Where the digits starting at `i` stop. */
  function DigitsEnd(s: seq<byte>, i: nat): (e: nat)
    requires i <= |s|
    ensures i <= e <= |s| && AllDigits(s[i..e]) && (e < |s| ==> !IsDigit(s[e]))
    decreases |s| - i
  {
    if i == |s| || !IsDigit(s[i]) then
      i
    else
      var e := DigitsEnd(s, i + 1);
      assert s[i..e] == [s[i]] + s[i + 1..e];
      e
  }

  lemma {:induction false} DigitsEndIs(s: seq<byte>, i: nat, e: nat)
    requires i <= e <= |s| && AllDigits(s[i..e]) && (e < |s| ==> !IsDigit(s[e]))
    ensures DigitsEnd(s, i) == e
    decreases e - i
  {
    if i < e {
      assert s[i] == s[i..e][0];
      assert s[i + 1..e] == s[i..e][1..];
      DigitsEndIs(s, i + 1, e);
    }
  }

  lemma {:induction false} NumConcat(a: seq<byte>, b: seq<byte>)
    requires AllDigits(a) && AllDigits(b)
    ensures AllDigits(a + b) && Num(a + b) == Num(a) * Pow10(|b|) + Num(b)
    decreases |b|
  {
    if b == [] {
      assert a + b == a;
    } else {
      var c := b[..|b| - 1];
      assert (a + b)[..|a + b| - 1] == a + c;
      NumConcat(a, c);
      calc {
        Num(a + b);
        10 * Num(a + c) + (b[|b| - 1] - ZERO);
        10 * (Num(a) * Pow10(|c|) + Num(c)) + (b[|b| - 1] - ZERO);
        10 * (Num(a) * Pow10(|c|)) + Num(b);
        { ScaleByTen(Num(a), Pow10(|c|)); }
        Num(a) * Pow10(|b|) + Num(b);
      }
    }
  }

  lemma ScaleByTen(x: int, p: int)
    ensures 10 * (x * p) == x * (10 * p)
  {
  }

  /** Reading more digits never makes the number smaller. */
  lemma {:induction false} NumPrefix(s: seq<byte>, k: nat)
    requires AllDigits(s) && k <= |s|
    ensures AllDigits(s[..k]) && Num(s[..k]) <= Num(s)
    decreases |s| - k
  {
    if k == |s| {
      assert s[..k] == s;
    } else {
      assert s[..k + 1][..k] == s[..k];
      NumPrefix(s, k + 1);
    }
  }

  lemma {:induction false} NumBelowPower(s: seq<byte>)
    requires AllDigits(s)
    ensures Num(s) < Pow10(|s|)
  {
    if s != [] {
      NumBelowPower(s[..|s| - 1]);
    }
  }

  /** `{n}`: decimal without leading zeros. */
  function Decimal(n: nat): (s: seq<byte>)
    ensures s != [] && AllDigits(s) && Num(s) == n
  {
    if n < 10 then
      assert [(ZERO + n) as byte][..0] == [];
      [(ZERO + n) as byte]
    else
      var s := Decimal(n / 10) + [(ZERO + n % 10) as byte];
      assert s[..|s| - 1] == Decimal(n / 10);
      s
  }

  /** `{n:0width$}` for `n` of at most `width` digits. */
  function Padded(n: nat, width: nat): (s: seq<byte>)
    requires n < Pow10(width)
    ensures |s| == width && AllDigits(s) && Num(s) == n
  {
    if width == 0 then
      []
    else
      var s := Padded(n / 10, width - 1) + [(ZERO + n % 10) as byte];
      assert s[..|s| - 1] == Padded(n / 10, width - 1);
      s
  }
}
