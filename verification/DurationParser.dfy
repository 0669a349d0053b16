/** The duration parser, on the bytes of its input.

    `u64` is the machine word: every operation on it is checked to stay in
    range. The fraction is computed with exact rationals rounded down. */
module DurationParser {
  import opened Wrappers
  import opened Digits
  import opened Arithmetic

  newtype u64 = x: int | 0 <= x < 0x1_0000_0000_0000_0000

  const TWO_63: int := 0x8000_0000_0000_0000
  const I64_MAX: int := TWO_63 - 1

  datatype Error = Invalid | MissingUnit | UnknownUnit

  function UnitNanos(unit: seq<byte>): (n: Option<nat>)
    ensures n.Some? ==> 0 < n.value <= 3_600_000_000_000
  {
    if unit == [110, 115] then Some(1)                                            // ns
    else if unit == [117, 115] then Some(1_000)                                   // us
    else if unit == [0xC2, 0xB5, 115] then Some(1_000)                            // micro sign
    else if unit == [0xCE, 0xBC, 115] then Some(1_000)                            // Greek mu
    else if unit == [109, 115] then Some(1_000_000)                               // ms
    else if unit == [115] then Some(1_000_000_000)                                // s
    else if unit == [109] then Some(60_000_000_000)                               // m
    else if unit == [104] then Some(3_600_000_000_000)                            // h
    else None
  }

  // ----- specification -----

  /** The digits of a fraction that still fit: all up to the first overflow. */
  function Kept(digits: seq<byte>, i: nat): (k: nat)
    requires AllDigits(digits) && i <= |digits|
    ensures i <= k <= |digits|
    decreases |digits| - i
  {
    if i < |digits| && Num(digits[..i + 1]) <= TWO_63 then Kept(digits, i + 1) else i
  }

  function Scaled(f: nat, unit: nat, scale: nat): (n: nat)
    requires scale > 0
  {
    DivNonNegative(f * unit, scale);
    f * unit / scale
  }

  /** Whole nanoseconds of `whole.fraction` units, rounded down. */
  function Nanos(whole: seq<byte>, fraction: seq<byte>, unit: nat): (n: nat)
    requires AllDigits(whole) && AllDigits(fraction)
  {
    var k := Kept(fraction, 0);
    Scaled(Num(whole), unit, 1) + Scaled(Num(fraction[..k]), unit, Pow10(k))
  }

  predicate InNumber(b: byte) {
    b == DOT || IsDigit(b)
  }

  /** Where the unit starting at `i` stops: at the next number. */
  function UnitEnd(s: seq<byte>, i: nat): (e: nat)
    requires i <= |s|
    ensures i <= e <= |s| && (e < |s| ==> InNumber(s[e]))
    ensures forall j :: i <= j < e ==> !InNumber(s[j])
    decreases |s| - i
  {
    if i == |s| || InNumber(s[i]) then i else UnitEnd(s, i + 1)
  }

  /** The number and unit at the front of `b`: digits up to `whole`, fraction
      digits in `fraction..point`, unit in `point..unit`. */
  datatype Segment = Segment(whole: nat, fraction: nat, point: nat, unit: nat)

  function Split(b: seq<byte>): (g: Segment)
    ensures g.whole <= g.fraction <= g.point <= g.unit <= |b|
    ensures AllDigits(b[..g.whole]) && AllDigits(b[g.fraction..g.point])
  {
    var n := DigitsEnd(b, 0);
    assert b[0..n] == b[..n];
    var f := if n < |b| && b[n] == DOT then n + 1 else n;
    var p := if f > n then DigitsEnd(b, f) else n;
    Segment(n, f, p, UnitEnd(b, p))
  }

  function SegmentNanos(b: seq<byte>): (r: Result<nat, Error>)
    ensures r.Success? ==> r.value <= TWO_63 && Split(b).unit > 0
  {
    var g := Split(b);
    if b == [] || !InNumber(b[0]) || Num(b[..g.whole]) > TWO_63 || (g.whole == 0 && g.fraction == g.point) then
      Failure(Invalid)
    else if g.unit == g.point then
      Failure(MissingUnit)
    else
      match UnitNanos(b[g.point..g.unit])
      case None => Failure(UnknownUnit)
      case Some(unit) =>
        var n := Nanos(b[..g.whole], b[g.fraction..g.point], unit);
        if n > TWO_63 then Failure(Invalid) else Success(n)
  }

  /** Reads one segment off the front of its input: value and length. */
  type Scanner = f: seq<byte> -> Result<(nat, nat), Error>
    | forall b :: f(b).Success? ==> 0 < f(b).value.1 <= |b|
    witness (b: seq<byte>) => Failure(Invalid)

  function Scan(b: seq<byte>): (r: Result<(nat, nat), Error>)
    ensures r.Success? ==> 0 < r.value.1 <= |b|
  {
    match SegmentNanos(b)
    case Failure(e) => Failure(e)
    case Success(n) => Success((n, Split(b).unit))
  }

  /** What the accumulating loop computes, for any way of reading segments. */
  function Accumulate(scan: Scanner, b: seq<byte>, d: nat): (r: Result<nat, Error>)
    requires d <= TWO_63
    ensures r.Success? ==> d <= r.value <= TWO_63
    decreases |b|
  {
    if b == [] then
      Success(d)
    else
      match scan(b)
      case Failure(e) => Failure(e)
      case Success((n, length)) =>
        if d + n > TWO_63 then Failure(Invalid) else Accumulate(scan, b[length..], d + n)
  }

  function Unsigned(s: seq<byte>): (b: seq<byte>) {
    if s != [] && (s[0] == 45 || s[0] == 43) then s[1..] else s
  }

  function ParseWith(scan: Scanner, s: seq<byte>): (r: Result<int, Error>)
    ensures r.Success? ==> -TWO_63 <= r.value <= I64_MAX
  {
    var neg := s != [] && s[0] == 45;
    var b := Unsigned(s);
    if b == [ZERO] then
      Success(0)
    else if b == [] then
      Failure(Invalid)
    else
      match Accumulate(scan, b, 0)
      case Failure(e) => Failure(e)
      case Success(d) => WithSign(neg, d)
  }

  function Parse(s: seq<byte>): (r: Result<int, Error>)
    ensures r.Success? ==> -TWO_63 <= r.value <= I64_MAX
  {
    ParseWith(Scan, s)
  }

  function WithSign(neg: bool, d: int): Result<int, Error> {
    if neg then Success(-d) else if d > I64_MAX then Failure(Invalid) else Success(d)
  }

  // ----- the program -----

  /** Consumes leading digits; fails exactly when they denote more than 2^63. */
  method LeadingInt(s: seq<byte>) returns (r: Option<(u64, seq<byte>)>)
    ensures var n := DigitsEnd(s, 0);
            s[0..n] == s[..n] &&
            if Num(s[..n]) > TWO_63 then r.None? else r.Some? && r.value.0 as int == Num(s[..n]) && r.value.1 == s[n..]
  {
    var x: u64 := 0;
    var i := 0;
    ghost var n := DigitsEnd(s, 0);
    assert s[0..n] == s[..n];
    while i < |s| && IsDigit(s[i])
      invariant 0 <= i <= n && AllDigits(s[..i]) && x as int == Num(s[..i]) <= TWO_63
    {
      assert s[..i + 1][..i] == s[..i];
      assert s[..n][..i + 1] == s[..i + 1];
      NumPrefix(s[..n], i + 1);
      if x > 0x8000_0000_0000_0000 / 10 {
        return None;
      }
      x := x * 10 + (s[i] - ZERO) as u64;
      if x > 0x8000_0000_0000_0000 {
        return None;
      }
      i := i + 1;
    }
    return Some((x, s[i..]));
  }

  /** Consumes the digits of a fraction; digits past the word size are dropped. */
  method LeadingFraction(s: seq<byte>) returns (x: u64, scale: nat, rest: seq<byte>)
    ensures var n := DigitsEnd(s, 0);
            s[0..n] == s[..n] &&
            var k := Kept(s[..n], 0);
            x as int == Num(s[..n][..k]) && scale == Pow10(k) && rest == s[n..]
  {
    x, scale := 0, 1;
    var overflow := false;
    var i := 0;
    ghost var n := DigitsEnd(s, 0);
    assert s[0..n] == s[..n];
    ghost var digits := s[..n];
    ghost var k := 0;
    while i < |s| && IsDigit(s[i])
      invariant 0 <= k <= i <= n && AllDigits(digits[..k])
      invariant x as int == Num(digits[..k]) <= TWO_63 && scale == Pow10(k)
      invariant if overflow then Kept(digits, 0) == k else k == i && Kept(digits, 0) == Kept(digits, i)
    {
      var c := s[i];
      i := i + 1;
      if overflow {
        continue;
      }
      assert digits[..i][..i - 1] == digits[..i - 1] && digits[i - 1] == c;
      if x > 0x7fff_ffff_ffff_ffff / 10 {
        overflow := true;
        continue;
      }
      var y := x * 10 + (c - ZERO) as u64;
      if y > 0x8000_0000_0000_0000 {
        overflow := true;
        continue;
      }
      x := y;
      scale := scale * 10;
      k := i;
    }
    rest := s[i..];
  }

  /** The digits before the unit: whole part, fraction and its scale, and the
      unread rest; fails on a whole part past 2^63 or without any digit. */
  method ParseNumber(b: seq<byte>) returns (r: Option<(u64, u64, nat, seq<byte>)>)
    ensures var g := Split(b);
            var digits := b[g.fraction..g.point];
            if Num(b[..g.whole]) > TWO_63 || (g.whole == 0 && g.fraction == g.point) then r.None?
            else
              && r.Some? && r.value.0 as int == Num(b[..g.whole])
              && r.value.1 as int == Num(digits[..Kept(digits, 0)]) && r.value.2 == Pow10(Kept(digits, 0))
              && r.value.3 == b[g.point..]
  {
    ghost var g := Split(b);
    var lead := LeadingInt(b);
    if lead.None? {
      return None;
    }
    var (v, rest) := lead.value;
    var pre := |rest| != |b|;
    var post := false;
    var f: u64, scale: nat := 0, 1;
    if rest != [] && rest[0] == DOT {
      rest := rest[1..];
      var pl := |rest|;
      ShiftDigits(b, g.fraction);
      f, scale, rest := LeadingFraction(rest);
      post := pl != |rest|;
    }
    if !pre && !post {
      return None;
    }
    return Some((v, f, scale, rest));
  }

  method ParseSegment(b: seq<byte>) returns (r: Result<(u64, seq<byte>), Error>)
    requires b != []
    ensures match SegmentNanos(b)
            case Failure(e) => r == Failure(e)
            case Success(n) => r.Success? && r.value.0 as int == n && r.value.1 == b[Split(b).unit..]
  {
    if !(b[0] == DOT || IsDigit(b[0])) {
      return Failure(Invalid);
    }
    var number := ParseNumber(b);
    if number.None? {
      return Failure(Invalid);
    }
    var (v, f, scale, rest) := number.value;
    ghost var g := Split(b);
    var i := UnitLength(rest);
    ShiftUnit(b, g.point);
    if i == 0 {
      return Failure(MissingUnit);
    }
    var u := rest[..i];
    assert u == b[g.point..g.unit];
    var unit := UnitNanos(u);
    if unit.None? {
      return Failure(UnknownUnit);
    }
    ghost var fraction := b[g.fraction..g.point];
    var total := Combine(v, f, scale, unit.value, fraction[..Kept(fraction, 0)]);
    if total.None? {
      return Failure(Invalid);
    }
    return Success((total.value, rest[i..]));
  }

  /** `v` whole units plus the fraction `f / scale`, in nanoseconds. */
  method Combine(whole: u64, f: u64, scale: nat, unit: nat, ghost digits: seq<byte>) returns (r: Option<u64>)
    requires 0 < unit <= 3_600_000_000_000
    requires AllDigits(digits) && f as int == Num(digits) && scale == Pow10(|digits|)
    ensures var n := Scaled(whole as int, unit, 1) + Scaled(f as int, unit, scale);
            if n > TWO_63 then r.None? else r.Some? && r.value as int == n
  {
    OverUnit(whole as int, unit, TWO_63);
    NumBelowPower(digits);
    FractionBelowUnit(f as int, unit, scale);
    var v := whole;
    if v as int > 0x8000_0000_0000_0000 / unit {
      return None;
    }
    v := (v as int * unit) as u64;
    if f > 0 {
      v := v + (f as int * unit / scale) as u64;
      if v > 0x8000_0000_0000_0000 {
        return None;
      }
    }
    return Some(v);
  }

  lemma OverUnit(v: nat, unit: nat, limit: nat)
    requires unit > 0
    ensures v > limit / unit <==> v * unit > limit
    ensures Scaled(v, unit, 1) == v * unit
  {
    OverQuotient(v, unit, limit);
  }

  lemma FractionBelowUnit(f: nat, unit: nat, scale: nat)
    requires f < scale
    ensures 0 <= f * unit / scale <= unit
  {
    assert f * unit <= scale * unit;
    DivNonNegative(f * unit, scale);
    DivMonotone(f * unit, scale * unit, scale);
    MulDiv(unit, scale);
  }

  method UnitLength(b: seq<byte>) returns (i: nat)
    ensures i == UnitEnd(b, 0)
  {
    i := 0;
    while i < |b| && !(b[i] == DOT || IsDigit(b[i]))
      invariant i <= |b| && UnitEnd(b, 0) == UnitEnd(b, i)
    {
      i := i + 1;
    }
  }

  lemma {:induction false} ShiftUnit(b: seq<byte>, i: nat)
    requires i <= |b|
    ensures UnitEnd(b[i..], 0) + i == UnitEnd(b, i)
  {
    UnitEndIs(b[i..], 0, UnitEnd(b, i) - i);
  }

  lemma {:induction false} UnitEndIs(s: seq<byte>, i: nat, e: nat)
    requires i <= e <= |s| && (forall j :: i <= j < e ==> !InNumber(s[j])) && (e < |s| ==> InNumber(s[e]))
    ensures UnitEnd(s, i) == e
    decreases e - i
  {
    if i < e {
      UnitEndIs(s, i + 1, e);
    }
  }

  method ParseSegments(all: seq<byte>) returns (r: Result<u64, Error>)
    ensures match Accumulate(Scan, all, 0)
            case Failure(e) => r == Failure(e)
            case Success(n) => r.Success? && r.value as int == n
  {
    var b := all;
    var d: u64 := 0;
    while b != []
      invariant d as int <= TWO_63
      invariant Accumulate(Scan, all, 0) == Accumulate(Scan, b, d as int)
      decreases |b|
    {
      var segment := ParseSegment(b);
      if segment.Failure? {
        return Failure(segment.error);
      }
      var (v, rest) := segment.value;
      if d as int + v as int >= 0x1_0000_0000_0000_0000 {
        return Failure(Invalid);
      }
      d := d + v;
      if d > 0x8000_0000_0000_0000 {
        return Failure(Invalid);
      }
      b := rest;
    }
    return Success(d);
  }

  method ParseDurationNanos(s: seq<byte>) returns (r: Result<int, Error>)
    ensures r == Parse(s)
  {
    hide Scan, Accumulate;
    var b := s;
    var neg := false;
    if b != [] && (b[0] == 45 || b[0] == 43) {
      neg := b[0] == 45;
      b := b[1..];
    }
    if b == [ZERO] {
      return Success(0);
    }
    if b == [] {
      return Failure(Invalid);
    }
    var total := ParseSegments(b);
    if total.Failure? {
      return Failure(total.error);
    }
    var d := total.value as int;
    if neg {
      return Success(-d);
    }
    if d > 0x7fff_ffff_ffff_ffff {
      return Failure(Invalid);
    }
    return Success(d);
  }

  /** Scanning a suffix finds the same digits as scanning from its offset. */
  lemma ShiftDigits(b: seq<byte>, i: nat)
    requires i <= |b|
    ensures DigitsEnd(b[i..], 0) + i == DigitsEnd(b, i)
    ensures b[i..][..DigitsEnd(b[i..], 0)] == b[i..DigitsEnd(b, i)]
  {
    hide DigitsEnd, AllDigits;
    var e := DigitsEnd(b, i);
    assert b[i..][0..e - i] == b[i..e];
    DigitsEndIs(b[i..], 0, e - i);
  }
}
