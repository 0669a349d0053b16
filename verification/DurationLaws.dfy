/** What the duration parser and printer promise together. */
module DurationLaws {
  import opened Wrappers
  import opened Arithmetic
  import opened Digits
  import opened DurationParser
  import opened DurationFormatter

  // ----- parsing is the exact sum of its segments -----

  /** The sum of all segments, without any bound. */
  function SumOf(scan: Scanner, b: seq<byte>): (r: Result<nat, Error>)
    decreases |b|
  {
    if b == [] then
      Success(0)
    else
      match scan(b)
      case Failure(e) => Failure(e)
      case Success((n, length)) =>
        match SumOf(scan, b[length..])
        case Failure(e) => Failure(e)
        case Success(rest) => Success(n + rest)
  }

  /** The accumulating loop accepts exactly the well-formed inputs whose sum
      stays within 2^63, and rejects a larger sum as invalid. */
  lemma {:induction false} AccumulateIsBoundedSum(scan: Scanner, b: seq<byte>, d: nat)
    requires d <= TWO_63
    ensures SumOf(scan, b).Success? ==>
              Accumulate(scan, b, d) ==
              if d + SumOf(scan, b).value <= TWO_63 then Success(d + SumOf(scan, b).value) else Failure(Invalid)
    ensures SumOf(scan, b).Failure? ==> Accumulate(scan, b, d).Failure?
    decreases |b|
  {
    if b != [] && scan(b).Success? && d + scan(b).value.0 <= TWO_63 {
      AccumulateIsBoundedSum(scan, b[scan(b).value.1..], d + scan(b).value.0);
    }
  }

  /** A segment reads the same whatever number follows it. */
  ghost predicate Extends(scan: Scanner) {
    forall a, b {:trigger scan(a + b)} :: scan(a).Success? && (b == [] || InNumber(b[0])) ==> scan(a + b) == scan(a)
  }

  lemma {:induction false} SumConcat(scan: Scanner, a: seq<byte>, b: seq<byte>)
    requires Extends(scan) && SumOf(scan, a).Success? && SumOf(scan, b).Success? && (b == [] || InNumber(b[0]))
    ensures SumOf(scan, a + b) == Success(SumOf(scan, a).value + SumOf(scan, b).value)
    decreases |a|
  {
    if a == [] {
      assert a + b == b;
    } else {
      var length := scan(a).value.1;
      assert (a + b)[length..] == a[length..] + b;
      SumConcat(scan, a[length..], b);
    }
  }

  lemma SplitConcat(a: seq<byte>, b: seq<byte>)
    requires Split(a).point < Split(a).unit && (b == [] || InNumber(b[0]))
    ensures Split(a + b) == Split(a)
  {
    hide Num;
    var g := Split(a);
    var c := a + b;
    assert c[0..g.whole] == a[..g.whole];
    assert c[g.whole] == a[g.whole];
    DigitsEndIs(c, 0, g.whole);
    if g.fraction > g.whole {
      assert c[g.fraction..g.point] == a[g.fraction..g.point];
      assert c[g.point] == a[g.point];
      DigitsEndIs(c, g.fraction, g.point);
    }
    UnitEndIs(c, g.point, g.unit);
  }

  /** A segment keeps its meaning whatever number follows it. */
  lemma SegmentConcat(a: seq<byte>, b: seq<byte>)
    requires SegmentNanos(a).Success? && (b == [] || InNumber(b[0]))
    ensures Split(a + b) == Split(a) && SegmentNanos(a + b) == SegmentNanos(a)
  {
    hide Num, Split, Nanos, UnitNanos;
    SplitConcat(a, b);
    var g := Split(a);
    var c := a + b;
    assert c[..g.whole] == a[..g.whole];
    assert c[g.fraction..g.point] == a[g.fraction..g.point];
    assert c[g.point..g.unit] == a[g.point..g.unit];
    assert c[0] == a[0];
  }

  lemma ScanExtends()
    ensures Extends(Scan)
  {
    forall a: seq<byte>, b: seq<byte> | Scan(a).Success? && (b == [] || InNumber(b[0]))
      ensures Scan(a + b) == Scan(a)
    {
      SegmentConcat(a, b);
    }
  }

  /** An accepted unsigned duration is the sum of its segments. */
  lemma ParseUnsigned(scan: Scanner, a: seq<byte>)
    requires Unsigned(a) == a != [ZERO]
    ensures ParseWith(scan, a).Success? <==> a != [] && SumOf(scan, a).Success? && SumOf(scan, a).value <= I64_MAX
    ensures ParseWith(scan, a).Success? ==> ParseWith(scan, a).value == SumOf(scan, a).value && scan(a).Success?
    ensures a != [] && SumOf(scan, a).Success? && SumOf(scan, a).value > I64_MAX ==> ParseWith(scan, a) == Failure(Invalid)
  {
    AccumulateIsBoundedSum(scan, a, 0);
  }

  lemma ParseWithIsAdditive(scan: Scanner, a: seq<byte>, b: seq<byte>)
    requires Extends(scan) && (scan(b).Success? ==> b != [] && InNumber(b[0]))
    requires Unsigned(a) == a != [ZERO] && Unsigned(b) == b != [ZERO]
    requires ParseWith(scan, a).Success? && ParseWith(scan, b).Success?
    ensures var sum := ParseWith(scan, a).value + ParseWith(scan, b).value;
            ParseWith(scan, a + b) == if sum <= I64_MAX then Success(sum) else Failure(Invalid)
  {
    ParseUnsigned(scan, a);
    ParseUnsigned(scan, b);
    SumConcat(scan, a, b);
    assert (a + b)[0] == a[0] && Unsigned(a + b) == a + b;
    ParseUnsigned(scan, a + b);
  }

  /** Additivity: for unsigned durations other than the bare "0", parsing the
      concatenation gives the sum when it fits and fails otherwise. */
  lemma ParseIsAdditive(a: seq<byte>, b: seq<byte>)
    requires Unsigned(a) == a != [ZERO] && Unsigned(b) == b != [ZERO]
    requires Parse(a).Success? && Parse(b).Success?
    ensures var sum := Parse(a).value + Parse(b).value;
            Parse(a + b) == if sum <= I64_MAX then Success(sum) else Failure(Invalid)
  {
    hide Scan;
    ScanExtends();
    ScanStartsNumber(b);
    ParseWithIsAdditive(Scan, a, b);
  }

  lemma ScanStartsNumber(b: seq<byte>)
    ensures Scan(b).Success? ==> b != [] && InNumber(b[0])
  {
  }

  /** A segment's value is the rational number it denotes (up to the digits
      that fit) times the unit, rounded down. */
  lemma NanosRoundsDown(whole: seq<byte>, fraction: seq<byte>, unit: nat)
    requires AllDigits(whole) && AllDigits(fraction)
    ensures var kept := fraction[..Kept(fraction, 0)];
            AllDigits(whole + kept) && Nanos(whole, fraction, unit) == Num(whole + kept) * unit / Pow10(|kept|)
  {
    var kept := fraction[..Kept(fraction, 0)];
    NumConcat(whole, kept);
    RoundDown(Num(whole), Num(kept), Pow10(|kept|), unit);
  }

  lemma RoundDown(w: nat, f: nat, p: nat, unit: nat)
    requires p > 0
    ensures Scaled(w, unit, 1) + Scaled(f, unit, p) == (w * p + f) * unit / p
  {
    assert (w * p + f) * unit == (w * unit) * p + f * unit;
    AddMultiple(f * unit, w * unit, p);
  }

  // ----- parsing what the printer prints -----

  /** `whole`, an optional dotted fraction, a unit, and then another number or the end. */
  predicate IsSegmentText(whole: seq<byte>, dotted: bool, fraction: seq<byte>, unit: seq<byte>, rest: seq<byte>) {
    && whole != [] && AllDigits(whole) && AllDigits(fraction) && (!dotted ==> fraction == [])
    && unit != [] && (forall j :: 0 <= j < |unit| ==> !InNumber(unit[j]))
    && (rest == [] || InNumber(rest[0]))
  }

  function SegmentText(whole: seq<byte>, dotted: bool, fraction: seq<byte>, unit: seq<byte>, rest: seq<byte>): seq<byte> {
    whole + (if dotted then [DOT] + fraction else []) + unit + rest
  }

  lemma SplitText(whole: seq<byte>, dotted: bool, fraction: seq<byte>, unit: seq<byte>, rest: seq<byte>)
    requires IsSegmentText(whole, dotted, fraction, unit, rest)
    ensures var b := SegmentText(whole, dotted, fraction, unit, rest);
            var g := Split(b);
            && b[..g.whole] == whole && b[g.fraction..g.point] == fraction
            && b[g.point..g.unit] == unit && b[g.unit..] == rest
            && g.unit > g.point
  {
    hide Num;
    var b := SegmentText(whole, dotted, fraction, unit, rest);
    var n := |whole|;
    var f := if dotted then n + 1 else n;
    var p := f + |fraction|;
    var u := p + |unit|;
    assert b[0..n] == b[..n] == whole;
    assert b[f..p] == fraction;
    assert b[p..u] == unit && b[u..] == rest;
    assert b[p] == unit[0] && (dotted ==> b[n] == DOT);
    DigitsEndIs(b, 0, n);
    if dotted {
      DigitsEndIs(b, f, p);
    }
    UnitIs(b, unit, p, u);
  }

  lemma UnitIs(b: seq<byte>, unit: seq<byte>, p: nat, u: nat)
    requires p <= u <= |b| && b[p..u] == unit && (forall j :: 0 <= j < |unit| ==> !InNumber(unit[j]))
    requires u < |b| ==> InNumber(b[u])
    ensures UnitEnd(b, p) == u
  {
    assert forall j :: p <= j < u ==> b[j] == unit[j - p];
    UnitEndIs(b, p, u);
  }

  lemma ScanText(whole: seq<byte>, dotted: bool, fraction: seq<byte>, unit: seq<byte>, rest: seq<byte>, size: nat)
    requires IsSegmentText(whole, dotted, fraction, unit, rest) && UnitNanos(unit) == Some(size)
    requires Num(whole) <= TWO_63 && Nanos(whole, fraction, size) <= TWO_63
    ensures var b := SegmentText(whole, dotted, fraction, unit, rest);
            && SegmentNanos(b) == Success(Nanos(whole, fraction, size))
            && Scan(b).Success? && Scan(b).value.0 == Nanos(whole, fraction, size) && b[Scan(b).value.1..] == rest
  {
    hide Split, DigitsEnd, Nanos, Num;
    SplitText(whole, dotted, fraction, unit, rest);
    var b := SegmentText(whole, dotted, fraction, unit, rest);
    assert b[0] == whole[0];
  }

  // ----- spellings and signs -----

  /** Two spellings of one unit scan alike. */
  lemma SameUnitScansAlike(whole: seq<byte>, dotted: bool, fraction: seq<byte>, u1: seq<byte>, u2: seq<byte>, rest: seq<byte>)
    requires IsSegmentText(whole, dotted, fraction, u1, rest) && IsSegmentText(whole, dotted, fraction, u2, rest)
    requires UnitNanos(u1) == UnitNanos(u2)
    ensures var b1, b2 := SegmentText(whole, dotted, fraction, u1, rest), SegmentText(whole, dotted, fraction, u2, rest);
            && SegmentNanos(b1) == SegmentNanos(b2)
            && (SegmentNanos(b1).Success? ==> b1[Split(b1).unit..] == rest && b2[Split(b2).unit..] == rest)
  {
    hide Split, DigitsEnd, Nanos, Num, UnitNanos;
    SplitText(whole, dotted, fraction, u1, rest);
    SplitText(whole, dotted, fraction, u2, rest);
    var b1, b2 := SegmentText(whole, dotted, fraction, u1, rest), SegmentText(whole, dotted, fraction, u2, rest);
    assert b1[0] == whole[0] == b2[0];
  }

  lemma SameUnitParsesAlike(whole: seq<byte>, dotted: bool, fraction: seq<byte>, u1: seq<byte>, u2: seq<byte>, rest: seq<byte>)
    requires IsSegmentText(whole, dotted, fraction, u1, rest) && IsSegmentText(whole, dotted, fraction, u2, rest)
    requires UnitNanos(u1) == UnitNanos(u2)
    ensures Parse(SegmentText(whole, dotted, fraction, u1, rest)) == Parse(SegmentText(whole, dotted, fraction, u2, rest))
  {
    hide SegmentNanos, Split, UnitNanos;
    SameUnitScansAlike(whole, dotted, fraction, u1, u2, rest);
    var b1, b2 := SegmentText(whole, dotted, fraction, u1, rest), SegmentText(whole, dotted, fraction, u2, rest);
    assert b1[0] == whole[0] == b2[0] && |b1| > 1 && |b2| > 1;
    assert Unsigned(b1) == b1 && Unsigned(b2) == b2;
    assert Accumulate(Scan, b1, 0) == Accumulate(Scan, b2, 0);
  }

  /** A number followed by something that is no unit, and one followed by nothing,
      are told apart. */
  lemma UnknownUnitIsReported(whole: seq<byte>, dotted: bool, fraction: seq<byte>, unit: seq<byte>, rest: seq<byte>)
    requires IsSegmentText(whole, dotted, fraction, unit, rest) && UnitNanos(unit).None? && Num(whole) <= TWO_63
    ensures Parse(SegmentText(whole, dotted, fraction, unit, rest)) == Failure(UnknownUnit)
  {
    hide Split, DigitsEnd, Nanos, Num, UnitNanos;
    SplitText(whole, dotted, fraction, unit, rest);
    var b := SegmentText(whole, dotted, fraction, unit, rest);
    assert b[0] == whole[0] && |b| > 1 && Unsigned(b) == b;
    assert Scan(b) == Failure(UnknownUnit);
  }

  lemma MissingUnitIsReported(whole: seq<byte>)
    requires AllDigits(whole) && whole != [] && whole != [ZERO] && Num(whole) <= TWO_63
    ensures Parse(whole) == Failure(MissingUnit)
  {
    assert whole[0..|whole|] == whole == whole[..|whole|];
    DigitsEndIs(whole, 0, |whole|);
    hide Num, DigitsEnd;
    assert Unsigned(whole) == whole;
    assert Split(whole).unit == Split(whole).point == |whole|;
    assert Scan(whole) == Failure(MissingUnit);
  }

  /** The three spellings of microseconds (with a u, the micro sign, the Greek mu)
      parse alike, in front of whatever follows. */
  lemma MicrosecondsParseAlike(whole: seq<byte>, dotted: bool, fraction: seq<byte>, rest: seq<byte>)
    requires IsSegmentText(whole, dotted, fraction, [117, 115], rest)
    ensures var us := Parse(SegmentText(whole, dotted, fraction, [117, 115], rest));
            && Parse(SegmentText(whole, dotted, fraction, [0xC2, 0xB5, 115], rest)) == us
            && Parse(SegmentText(whole, dotted, fraction, [0xCE, 0xBC, 115], rest)) == us
  {
    hide Parse;
    SameUnitParsesAlike(whole, dotted, fraction, [117, 115], [0xC2, 0xB5, 115], rest);
    SameUnitParsesAlike(whole, dotted, fraction, [117, 115], [0xCE, 0xBC, 115], rest);
  }

  /** A leading plus changes nothing, a leading minus negates; and minus alone
      admits the magnitude 2^63. */
  lemma SignLaws(s: seq<byte>)
    requires Unsigned(s) == s
    ensures Parse([43] + s) == Parse(s)
    ensures Parse(s).Success? ==> Parse([45] + s) == Success(-Parse(s).value)
    ensures Parse(s).Failure? && Parse([45] + s).Success? ==> Parse([45] + s).value == -TWO_63
  {
    hide Scan, Accumulate;
    assert ([43] + s)[1..] == s && ([45] + s)[1..] == s;
  }

  lemma {:induction false} PowAdd(a: nat, b: nat)
    ensures Pow10(a + b) == Pow10(a) * Pow10(b)
  {
    if a > 0 {
      PowAdd(a - 1, b);
      ScaleByTen(Pow10(b), Pow10(a - 1));
    }
  }

  lemma {:induction false} TrimKeepsNumber(s: seq<byte>)
    requires AllDigits(s)
    ensures AllDigits(TrimZeros(s)) && Num(s) == Num(TrimZeros(s)) * Pow10(|s| - |TrimZeros(s)|)
  {
    if s != [] && s[|s| - 1] == ZERO {
      var t := s[..|s| - 1];
      TrimKeepsNumber(t);
      ScaleByTen(Num(TrimZeros(t)), Pow10(|t| - |TrimZeros(t)|));
    }
  }

  lemma {:induction false} KeepsAll(digits: seq<byte>, i: nat)
    requires AllDigits(digits) && Num(digits) <= TWO_63 && i <= |digits|
    ensures Kept(digits, i) == |digits|
    decreases |digits| - i
  {
    if i < |digits| {
      NumPrefix(digits, i + 1);
      KeepsAll(digits, i + 1);
    }
  }

  /** The printed fraction of `v` in units of 10^prec reads back as that fraction. */
  lemma FractionReadsBack(v: nat, prec: nat)
    requires 0 < prec <= 9 && Frac(v, prec) > 0
    ensures var t := TrimZeros(Padded(Frac(v, prec), prec));
            AllDigits(t) && Scaled(Num(t[..Kept(t, 0)]), Pow10(prec), Pow10(Kept(t, 0))) == Frac(v, prec)
  {
    var s := Padded(Frac(v, prec), prec);
    var t := TrimZeros(s);
    TrimKeepsNumber(s);
    NumPrefix(s, |t|);
    PowUpTo9(prec);
    assert Pow10(9) == 1_000_000_000;
    KeepsAll(t, 0);
    assert t[..|t|] == t;
    UnscaledFraction(Num(t), |t|, prec);
  }

  lemma {:induction false} PowUpTo9(b: nat)
    requires b <= 9
    ensures Pow10(b) <= Pow10(9)
    decreases 9 - b
  {
    if b < 9 {
      PowUpTo9(b + 1);
    }
  }

  lemma UnscaledFraction(f: nat, k: nat, prec: nat)
    requires k <= prec
    ensures Scaled(f, Pow10(prec), Pow10(k)) == f * Pow10(prec - k)
  {
    PowAdd(k, prec - k);
    var q := f * Pow10(prec - k);
    assert f * Pow10(prec) == Pow10(k) * q;
    MulDiv(q, Pow10(k));
  }

  /** A printed whole number of units, followed by `rest`. */
  lemma WholeScans(n: nat, unit: seq<byte>, size: nat, rest: seq<byte>)
    requires IsSegmentText(Decimal(n), false, [], unit, rest) && UnitNanos(unit) == Some(size)
    requires n <= TWO_63 && n * size <= TWO_63
    ensures var b := Decimal(n) + unit + rest;
            Scan(b).Success? && Scan(b).value.0 == n * size && b[Scan(b).value.1..] == rest
  {
    hide Scan, SegmentNanos, Nanos, Decimal, UnitNanos;
    NanosOfWhole(Decimal(n), size);
    ScanText(Decimal(n), false, [], unit, rest, size);
    assert SegmentText(Decimal(n), false, [], unit, rest) == Decimal(n) + unit + rest;
  }

  lemma NanosOfWhole(whole: seq<byte>, size: nat)
    requires AllDigits(whole)
    ensures Nanos(whole, [], size) == Num(whole) * size
  {
    assert Kept([], 0) == 0;
    OverUnit(Num(whole), if size == 0 then 1 else size, 0);
  }

  lemma NanosOfFraction(whole: seq<byte>, t: seq<byte>, size: nat, prec: nat, frac: nat)
    requires AllDigits(whole) && AllDigits(t) && size == Pow10(prec)
    requires Scaled(Num(t[..Kept(t, 0)]), Pow10(prec), Pow10(Kept(t, 0))) == frac
    ensures Nanos(whole, t, size) == Num(whole) * size + frac
  {
    OverUnit(Num(whole), size, 0);
  }

  /** A printed amount with fraction, as the last segment. */
  lemma FractionScans(v: nat, whole: nat, prec: nat, unit: seq<byte>, size: nat)
    requires IsSegmentText(Decimal(whole), false, [], unit, []) && UnitNanos(unit) == Some(size)
    requires 0 < prec <= 9 && size == Pow10(prec) && whole <= TWO_63 && whole * size + Frac(v, prec) <= TWO_63
    ensures var b := Decimal(whole) + FractionText(v, prec) + unit;
            Scan(b).Success? && Scan(b).value.0 == whole * size + Frac(v, prec) && b[Scan(b).value.1..] == []
  {
    hide Scan, SegmentNanos, Nanos, Decimal, Padded, TrimZeros;
    var b := Decimal(whole) + FractionText(v, prec) + unit;
    if Frac(v, prec) == 0 {
      WholeScans(whole, unit, size, []);
      assert b == Decimal(whole) + unit + [];
    } else {
      var t := TrimZeros(Padded(Frac(v, prec), prec));
      FractionReadsBack(v, prec);
      NanosOfFraction(Decimal(whole), t, size, prec, Frac(v, prec));
      ScanText(Decimal(whole), true, t, unit, [], size);
      assert SegmentText(Decimal(whole), true, t, unit, []) == b;
    }
  }

  lemma WholeAndFrac(v: nat, prec: nat)
    ensures Whole(v, prec) * Pow10(prec) + Frac(v, prec) == v && Whole(v, prec) <= v
  {
    DivNonNegative(v, Pow10(prec));
    Arithmetic.MulMonotone(1, Pow10(prec), Whole(v, prec));
  }

  lemma SmallReadsBack(u: nat)
    requires 0 < u < SECOND
    ensures SumOf(Scan, Small(u)) == Success(u)
  {
    hide Scan;
    var b := Small(u);
    assert Pow10(3) == 1_000 && Pow10(6) == 1_000_000;
    if u < 1_000 {
      WholeScans(u, [110, 115], 1, []);
      assert b == Decimal(u) + [110, 115] + [];
    } else if u < 1_000_000 {
      WholeAndFrac(u, 3);
      FractionScans(u, Whole(u, 3), 3, [0xC2, 0xB5, 115], 1_000);
    } else {
      WholeAndFrac(u, 6);
      FractionScans(u, Whole(u, 6), 6, [109, 115], 1_000_000);
    }
    LastSegment(b, u);
  }

  /** An input that is one segment sums to that segment. */
  lemma LastSegment(b: seq<byte>, n: nat)
    requires Scan(b).Success? && Scan(b).value.0 == n && b[Scan(b).value.1..] == []
    ensures SumOf(Scan, b) == Success(n)
  {
    hide Scan;
  }

  lemma FirstSegment(b: seq<byte>, n: nat, rest: seq<byte>)
    requires Scan(b).Success? && Scan(b).value.0 == n && b[Scan(b).value.1..] == rest && SumOf(Scan, rest).Success?
    ensures SumOf(Scan, b) == Success(n + SumOf(Scan, rest).value)
  {
    hide Scan;
  }

  function SecondsText(u: nat): seq<byte> {
    Decimal(Whole(u, 9) % 60) + FractionText(u, 9) + [115]
  }

  function MinutesText(u: nat): seq<byte> {
    Decimal(Whole(u, 9) / 60 % 60) + [109] + SecondsText(u)
  }

  lemma SecondsReadBack(u: nat)
    requires u <= TWO_63
    ensures SumOf(Scan, SecondsText(u)) == Success(Whole(u, 9) % 60 * SECOND + Frac(u, 9)) && InNumber(SecondsText(u)[0])
  {
    hide Scan;
    assert Pow10(9) == SECOND;
    FractionScans(u, Whole(u, 9) % 60, 9, [115], SECOND);
    LastSegment(SecondsText(u), Whole(u, 9) % 60 * SECOND + Frac(u, 9));
  }

  lemma MinutesAndSeconds(secs: nat)
    ensures secs / 60 % 60 * 60_000_000_000 + secs % 60 * SECOND == secs % 3600 * SECOND
    ensures secs / 3600 * 3_600_000_000_000 + secs % 3600 * SECOND == secs * SECOND
  {
    assert secs % 3600 == secs / 60 % 60 * 60 + secs % 60;
  }

  lemma MinutesReadBack(u: nat)
    requires u <= TWO_63
    ensures SumOf(Scan, MinutesText(u)) == Success(Whole(u, 9) % 3600 * SECOND + Frac(u, 9)) && InNumber(MinutesText(u)[0])
  {
    hide Scan, FractionText, Decimal, Whole, Frac;
    var mins := Whole(u, 9) / 60 % 60;
    SecondsReadBack(u);
    MinutesAndSeconds(Whole(u, 9));
    WholeScans(mins, [109], 60_000_000_000, SecondsText(u));
    FirstSegment(MinutesText(u), mins * 60_000_000_000, SecondsText(u));
  }

  lemma LargeReadsBack(u: nat)
    requires SECOND <= u <= TWO_63
    ensures SumOf(Scan, Large(u)) == Success(u)
  {
    hide Scan, Whole, Frac, Decimal, FractionText, SumOf;
    assert Pow10(9) == SECOND;
    WholeAndFrac(u, 9);
    MinutesAndSeconds(Whole(u, 9));
    var secs := Whole(u, 9);
    var hours, mins := secs / 3600, secs / 60 % 60;
    if hours > 0 {
      MinutesReadBack(u);
      WholeScans(hours, [104], 3_600_000_000_000, MinutesText(u));
      assert Large(u) == Decimal(hours) + [104] + MinutesText(u);
      FirstSegment(Large(u), hours * 3_600_000_000_000, MinutesText(u));
    } else if mins > 0 {
      MinutesReadBack(u);
      assert Large(u) == MinutesText(u);
    } else {
      SecondsReadBack(u);
      assert Large(u) == SecondsText(u);
    }
  }

  /** The text of a magnitude starts with a digit and is longer than one byte. */
  lemma MagnitudeShape(u: nat)
    requires 0 < u
    ensures var b := if u < SECOND then Small(u) else Large(u); |b| >= 2 && IsDigit(b[0])
  {
  }

  lemma ZeroReadsBack()
    ensures SumOf(Scan, [ZERO, 115]) == Success(0)
  {
    hide Scan;
    WholeScans(0, [115], SECOND, []);
    assert Decimal(0) + [115] + [] == [ZERO, 115];
    LastSegment([ZERO, 115], 0);
  }

  /** A printed text that sums to its magnitude parses to the signed value. */
  lemma SignedReadsBack(scan: Scanner, b: seq<byte>, u: int, neg: bool)
    requires |b| >= 2 && IsDigit(b[0]) && SumOf(scan, b).Success? && SumOf(scan, b).value == u
    requires u <= if neg then TWO_63 else I64_MAX
    ensures ParseWith(scan, (if neg then [45] else []) + b) == Success(if neg then -u else u)
  {
    AccumulateIsBoundedSum(scan, b, 0);
    var s := (if neg then [45] else []) + b;
    assert neg ==> s[1..] == b;
    assert !neg ==> s == b;
  }

  /** Round trip: what the printer prints for any 64-bit duration, down to
      -2^63 and in every sub-second unit, parses back to that duration. */
  lemma FormatThenParse(n: int)
    requires -TWO_63 <= n <= I64_MAX
    ensures Parse(Format(n)) == Success(n)
  {
    hide Scan, Small, Large, ParseWith;
    var u := if n < 0 then -n else n;
    if u == 0 {
      ZeroReadsBack();
      SignedReadsBack(Scan, [ZERO, 115], 0, false);
      assert [] + [ZERO, 115] == Format(n);
    } else {
      var b := if u < SECOND then Small(u) else Large(u);
      MagnitudeShape(u);
      if u < SECOND {
        SmallReadsBack(u);
      } else {
        LargeReadsBack(u);
      }
      SignedReadsBack(Scan, b, u, n < 0);
    }
  }
}
