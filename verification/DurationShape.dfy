/** What a printed duration looks like, said without reference to the printer:
    for every duration exactly one text has this shape. */
module DurationShape {
  import opened Wrappers
  import opened Arithmetic
  import opened Digits
  import opened DurationParser
  import opened DurationFormatter
  import opened DurationLaws

  const MINUTE: nat := 60 * SECOND
  const HOUR: nat := 60 * MINUTE

  // ----- digit strings -----

  /** A decimal number without leading zeros. */
  predicate Plain(t: seq<byte>) {
    AllDigits(t) && t != [] && (|t| > 1 ==> t[0] != ZERO)
  }

  lemma {:induction false} PlainIsLarge(t: seq<byte>)
    requires Plain(t) && |t| > 1
    ensures Num(t) >= 10 && Plain(t[..|t| - 1])
  {
    var init := t[..|t| - 1];
    if |init| > 1 {
      PlainIsLarge(init);
    } else {
      assert init == [t[0]] && init[..0] == [];
    }
  }

  /** The printed number is the one plain digit string that denotes it. */
  lemma {:induction false} DecimalExactly(t: seq<byte>, n: nat)
    ensures t == Decimal(n) <==> Plain(t) && Num(t) == n
    decreases n
  {
    DecimalIsPlain(n);
    if Plain(t) && Num(t) == n {
      var init := t[..|t| - 1];
      if |t| > 1 {
        PlainIsLarge(t);
        DecimalExactly(init, n / 10);
        assert t == init + [t[|t| - 1]];
      } else {
        assert init == [];
      }
    }
  }

  lemma {:induction false} DecimalIsPlain(n: nat)
    ensures Plain(Decimal(n))
  {
    if n >= 10 {
      DecimalIsPlain(n / 10);
      assert Num(Decimal(n / 10)) > 0;
      if |Decimal(n / 10)| == 1 {
        assert Decimal(n / 10)[..0] == [];
      }
    }
  }

  /** The digits of a fraction: none, or ending in a nonzero digit. */
  predicate Trimmed(f: seq<byte>) {
    AllDigits(f) && (f != [] ==> f[|f| - 1] != ZERO)
  }

  lemma {:induction false} TrimIsTrimmed(s: seq<byte>)
    requires AllDigits(s)
    ensures Trimmed(TrimZeros(s))
  {
    if s != [] && s[|s| - 1] == ZERO {
      TrimIsTrimmed(s[..|s| - 1]);
    }
  }

  /** The value of the digits `f` after the point, in units of 10^-prec. */
  function Part(f: seq<byte>, prec: nat): nat
    requires AllDigits(f) && |f| <= prec
  {
    Num(f) * Pow10(prec - |f|)
  }

  function Zeros(n: nat): (z: seq<byte>)
    ensures |z| == n && AllDigits(z) && forall i :: 0 <= i < n ==> z[i] == ZERO
  {
    seq(n, i => ZERO)
  }

  lemma {:induction false} ZerosAreZero(n: nat)
    ensures Num(Zeros(n)) == 0
  {
    if n > 0 {
      ZerosAreZero(n - 1);
      assert Zeros(n)[..n - 1] == Zeros(n - 1);
    }
  }

  /** Digit strings of one length denote different numbers. */
  lemma {:induction false} SameNumber(s: seq<byte>, t: seq<byte>)
    requires AllDigits(s) && AllDigits(t) && |s| == |t| && Num(s) == Num(t)
    ensures s == t
  {
    if s != [] {
      var n := |s| - 1;
      SameNumber(s[..n], t[..n]);
      assert s == s[..n] + [s[n]] && t == t[..n] + [t[n]];
    }
  }

  lemma PartIsPadded(f: seq<byte>, prec: nat)
    requires AllDigits(f) && |f| <= prec
    ensures AllDigits(f + Zeros(prec - |f|)) && Num(f + Zeros(prec - |f|)) == Part(f, prec) < Pow10(prec)
  {
    ZerosAreZero(prec - |f|);
    NumConcat(f, Zeros(prec - |f|));
    NumBelowPower(f + Zeros(prec - |f|));
  }

  /** A fraction has one trimmed text. */
  lemma TrimmedUnique(f: seq<byte>, g: seq<byte>, prec: nat)
    requires Trimmed(f) && Trimmed(g) && |f| <= prec && |g| <= prec && Part(f, prec) == Part(g, prec)
    ensures f == g
  {
    PartIsPadded(f, prec);
    PartIsPadded(g, prec);
    var f', g' := f + Zeros(prec - |f|), g + Zeros(prec - |g|);
    SameNumber(f', g');
    assert (forall i :: |f| <= i < prec ==> f'[i] == ZERO) && (forall i :: |g| <= i < prec ==> g'[i] == ZERO);
    assert (f != [] ==> f'[|f| - 1] != ZERO) && (g != [] ==> g'[|g| - 1] != ZERO);
    assert f == f'[..|f|] && g == g'[..|g|];
  }

  // ----- the shape -----

  function Dotted(f: seq<byte>): seq<byte> {
    if f == [] then [] else [DOT] + f
  }

  datatype Clock = Clock(hours: nat, minutes: nat, seconds: nat, fraction: seq<byte>)

  /** From one second up: hours exactly from an hour on, minutes exactly from a
      minute on, minutes and seconds below 60, at most nine trimmed digits. */
  predicate IsClock(c: Clock, u: nat, text: seq<byte>) {
    && c.minutes < 60 && c.seconds < 60 && Trimmed(c.fraction) && |c.fraction| <= 9
    && u == c.hours * HOUR + c.minutes * MINUTE + c.seconds * SECOND + Part(c.fraction, 9)
    && text == (if u >= HOUR then Decimal(c.hours) + [104] else [])
               + (if u >= MINUTE then Decimal(c.minutes) + [109] else [])
               + (Decimal(c.seconds) + Dotted(c.fraction) + [115])
  }

  /** Below a second: nanoseconds, microseconds or milliseconds by range. */
  function Precision(u: nat): nat {
    if u < 1_000 then 0 else if u < 1_000_000 then 3 else 6
  }

  function UnitText(u: nat): seq<byte> {
    if u < 1_000 then [110, 115] else if u < 1_000_000 then [0xC2, 0xB5, 115] else [109, 115]
  }

  predicate IsSubSecond(whole: nat, fraction: seq<byte>, u: nat, text: seq<byte>) {
    && Trimmed(fraction) && |fraction| <= Precision(u)
    && u == whole * Pow10(Precision(u)) + Part(fraction, Precision(u))
    && text == Decimal(whole) + Dotted(fraction) + UnitText(u)
  }

  ghost predicate MagnitudeText(u: nat, text: seq<byte>) {
    if u < SECOND then exists whole, fraction :: IsSubSecond(whole, fraction, u, text)
    else exists c :: IsClock(c, u, text)
  }

  /** The shape of a printed duration. */
  ghost predicate Canonical(n: int, text: seq<byte>) {
    if n == 0 then text == [ZERO, 115]
    else if n > 0 then MagnitudeText(n, text)
    else text != [] && text[0] == 45 && MagnitudeText(-n, text[1..])
  }

  // ----- the printer produces it -----

  /** What is printed after the point, without the point. */
  function FractionDigits(v: nat, prec: nat): seq<byte> {
    if Frac(v, prec) == 0 then [] else TrimZeros(Padded(Frac(v, prec), prec))
  }

  lemma FractionFits(v: nat, prec: nat)
    ensures var f := FractionDigits(v, prec);
            Trimmed(f) && |f| <= prec && Part(f, prec) == Frac(v, prec) && FractionText(v, prec) == Dotted(f)
  {
    if Frac(v, prec) > 0 {
      var s := Padded(Frac(v, prec), prec);
      TrimIsTrimmed(s);
      TrimKeepsNumber(s);
      assert Num(TrimZeros(s)) != 0;
    }
  }

  lemma SmallIsSubSecond(u: nat)
    requires 0 < u < SECOND
    ensures MagnitudeText(u, Small(u))
  {
    var prec := Precision(u);
    if u < 1_000 {
      assert Decimal(u) + Dotted([]) + [110, 115] == Decimal(u) + [110, 115];
      assert IsSubSecond(u, [], u, Small(u));
    } else {
      FractionFits(u, prec);
      WholeAndFrac(u, prec);
      assert IsSubSecond(Whole(u, prec), FractionDigits(u, prec), u, Small(u));
    }
  }

  /** Seconds split into hours, minutes and seconds. */
  lemma SecondsSplit(secs: nat)
    ensures var h, m, s := secs / 3600, secs / 60 % 60, secs % 60;
            secs == h * 3600 + m * 60 + s && (h > 0 <==> secs >= 3600) && (h > 0 || m > 0 <==> secs >= 60)
  {
  }

  /** The printed parts. */
  lemma LargeParts(u: nat) returns (h: nat, m: nat, s: nat)
    ensures m < 60 && s < 60 && Whole(u, 9) == h * 3600 + m * 60 + s
    ensures Large(u) == (if Whole(u, 9) >= 3600 then Decimal(h) + [104] else [])
                        + (if Whole(u, 9) >= 60 then Decimal(m) + [109] else [])
                        + (Decimal(s) + FractionText(u, 9) + [115])
  {
    hide Decimal, FractionText, Whole;
    var secs := Whole(u, 9);
    SecondsSplit(secs);
    h, m, s := secs / 3600, secs / 60 % 60, secs % 60;
  }

  lemma NinthPower()
    ensures Pow10(9) == SECOND
  {
  }

  lemma BuildClock(u: nat, secs: nat, h: nat, m: nat, s: nat, f: seq<byte>, text: seq<byte>)
    requires m < 60 && s < 60 && Trimmed(f) && |f| <= 9 && Part(f, 9) < SECOND
    requires secs == h * 3600 + m * 60 + s && u == secs * SECOND + Part(f, 9)
    requires text == (if secs >= 3600 then Decimal(h) + [104] else [])
                     + (if secs >= 60 then Decimal(m) + [109] else [])
                     + (Decimal(s) + Dotted(f) + [115])
    ensures IsClock(Clock(h, m, s, f), u, text)
  {
    hide Decimal, Part, Dotted;
    WholeCompares(u, secs, Part(f, 9), 3600);
    WholeCompares(u, secs, Part(f, 9), 60);
  }

  lemma LargeIsClock(u: nat)
    requires u >= SECOND
    ensures MagnitudeText(u, Large(u))
  {
    FractionFits(u, 9);
    WholeAndFrac(u, 9);
    hide *;
    NinthPower();
    var h, m, s := LargeParts(u);
    BuildClock(u, Whole(u, 9), h, m, s, FractionDigits(u, 9), Large(u));
    ClockIsMagnitude(Clock(h, m, s, FractionDigits(u, 9)), u, Large(u));
  }

  lemma ClockIsMagnitude(c: Clock, u: nat, text: seq<byte>)
    requires u >= SECOND && IsClock(c, u, text)
    ensures MagnitudeText(u, text)
  {
  }

  lemma WholeCompares(u: nat, secs: nat, frac: nat, bound: nat)
    requires u == secs * SECOND + frac && frac < SECOND
    ensures secs >= bound <==> u >= bound * SECOND
  {
  }

  lemma FormatIsCanonical(n: int)
    ensures Canonical(n, Format(n))
  {
    hide Small, Large, MagnitudeText;
    var u := if n < 0 then -n else n;
    if u > 0 {
      if u < SECOND {
        SmallIsSubSecond(u);
      } else {
        LargeIsClock(u);
      }
      var body := if u < SECOND then Small(u) else Large(u);
      assert n < 0 ==> ([45] + body)[1..] == body;
      assert n > 0 ==> [] + body == body;
    }
  }

  // ----- nothing else has that shape -----

  lemma SubSecondUnique(w1: nat, f1: seq<byte>, w2: nat, f2: seq<byte>, u: nat, t1: seq<byte>, t2: seq<byte>)
    requires IsSubSecond(w1, f1, u, t1) && IsSubSecond(w2, f2, u, t2)
    ensures t1 == t2
  {
    var prec := Precision(u);
    PartIsPadded(f1, prec);
    PartIsPadded(f2, prec);
    DivIs(u, Pow10(prec), w1, Part(f1, prec));
    DivIs(u, Pow10(prec), w2, Part(f2, prec));
    TrimmedUnique(f1, f2, prec);
  }

  lemma ClockUnique(c1: Clock, c2: Clock, u: nat, t1: seq<byte>, t2: seq<byte>)
    requires IsClock(c1, u, t1) && IsClock(c2, u, t2)
    ensures t1 == t2
  {
    PartIsPadded(c1.fraction, 9);
    PartIsPadded(c2.fraction, 9);
    assert Pow10(9) == SECOND;
    ClockParts(c1, u, Part(c1.fraction, 9));
    ClockParts(c2, u, Part(c2.fraction, 9));
    TrimmedUnique(c1.fraction, c2.fraction, 9);
  }

  lemma ClockParts(c: Clock, u: nat, part: nat)
    requires c.minutes < 60 && c.seconds < 60 && part < SECOND
    requires u == c.hours * HOUR + c.minutes * MINUTE + c.seconds * SECOND + part
    ensures var secs := u / SECOND;
            part == u % SECOND && c.hours == secs / 3600 && c.minutes == secs / 60 % 60 && c.seconds == secs % 60
  {
    var secs := c.hours * 3600 + c.minutes * 60 + c.seconds;
    assert u == secs * SECOND + part;
    DivIs(u, SECOND, secs, part);
    DivIs(secs, 3600, c.hours, c.minutes * 60 + c.seconds);
    DivIs(secs, 60, c.hours * 60 + c.minutes, c.seconds);
    DivIs(c.hours * 60 + c.minutes, 60, c.hours, c.minutes);
  }

  lemma MagnitudeUnique(u: nat, t1: seq<byte>, t2: seq<byte>)
    requires MagnitudeText(u, t1) && MagnitudeText(u, t2)
    ensures t1 == t2
  {
    if u < SECOND {
      var w1, f1 :| IsSubSecond(w1, f1, u, t1);
      var w2, f2 :| IsSubSecond(w2, f2, u, t2);
      SubSecondUnique(w1, f1, w2, f2, u, t1, t2);
    } else {
      var c1 :| IsClock(c1, u, t1);
      var c2 :| IsClock(c2, u, t2);
      ClockUnique(c1, c2, u, t1, t2);
    }
  }

  /** The printed text is exactly the text of that shape. */
  lemma FormatExactly(n: int, text: seq<byte>)
    ensures text == Format(n) <==> Canonical(n, text)
  {
    FormatIsCanonical(n);
    hide MagnitudeText, Format;
    if Canonical(n, text) && n > 0 {
      MagnitudeUnique(n, text, Format(n));
    } else if Canonical(n, text) && n < 0 {
      MagnitudeUnique(-n, text[1..], Format(n)[1..]);
      assert text == [text[0]] + text[1..] && Format(n) == [Format(n)[0]] + Format(n)[1..];
    }
  }
}
