/** The duration printer: `Duration.String()` as bytes. */
module DurationFormatter {
  import opened Arithmetic
  import opened Digits
  import opened DurationParser

  const SECOND: nat := 1_000_000_000

  /** `s` without its trailing zeros. */
  function TrimZeros(s: seq<byte>): (r: seq<byte>)
    ensures |r| <= |s| && r == s[..|r|]
  {
    if s != [] && s[|s| - 1] == ZERO then TrimZeros(s[..|s| - 1]) else s
  }

  function Whole(v: nat, prec: nat): (q: nat) {
    DivNonNegative(v, Pow10(prec));
    v / Pow10(prec)
  }

  function Frac(v: nat, prec: nat): (r: nat)
    ensures r < Pow10(prec)
  {
    DivNonNegative(v, Pow10(prec));
    v % Pow10(prec)
  }

  /** The fraction of `v` in units of 10^prec, as printed: empty when zero. */
  function FractionText(v: nat, prec: nat): (s: seq<byte>) {
    if Frac(v, prec) == 0 then [] else [DOT] + TrimZeros(Padded(Frac(v, prec), prec))
  }

  function Small(u: nat): (s: seq<byte>)
    requires 0 < u < SECOND
  {
    if u < 1_000 then Decimal(u) + [110, 115]
    else if u < 1_000_000 then Decimal(Whole(u, 3)) + FractionText(u, 3) + [0xC2, 0xB5, 115]
    else Decimal(Whole(u, 6)) + FractionText(u, 6) + [109, 115]
  }

  function Large(u: nat): (s: seq<byte>) {
    var secs := Whole(u, 9);
    var hours, mins, s := secs / 3600, secs / 60 % 60, secs % 60;
    (if hours > 0 then Decimal(hours) + [104] else []) +
    (if hours > 0 || mins > 0 then Decimal(mins) + [109] else []) +
    (Decimal(s) + FractionText(u, 9) + [115])
  }

  function Format(nanos: int): (s: seq<byte>) {
    var u := if nanos < 0 then -nanos else nanos;
    if u == 0 then [ZERO, 115]
    else (if nanos < 0 then [45] else []) + (if u < SECOND then Small(u) else Large(u))
  }

  // ----- the program -----

  method PopZeros(all: seq<byte>) returns (digits: seq<byte>)
    ensures digits == TrimZeros(all)
  {
    digits := all;
    while digits != [] && digits[|digits| - 1] == ZERO
      invariant TrimZeros(all) == TrimZeros(digits)
      decreases |digits|
    {
      digits := digits[..|digits| - 1];
    }
  }

  method SplitFrac(v: u64, prec: nat) returns (whole: nat, text: seq<byte>)
    ensures whole == Whole(v as int, prec) && text == FractionText(v as int, prec)
  {
    var frac := Frac(v as int, prec);
    whole, text := Whole(v as int, prec), [];
    if frac != 0 {
      var digits := PopZeros(Padded(frac, prec));
      text := [DOT] + digits;
    }
  }

  method FormatSmall(u: u64) returns (s: seq<byte>)
    requires 0 < u < 1_000_000_000
    ensures s == Small(u as int)
  {
    var prec, unit := 6, [109, 115];
    if u < 1_000 {
      prec, unit := 0, [110, 115];
    } else if u < 1_000_000 {
      prec, unit := 3, [0xC2, 0xB5, 115];
    }
    var whole, frac := SplitFrac(u, prec);
    assert Pow10(0) == 1;
    s := Decimal(whole) + frac + unit;
  }

  method FormatLarge(u: u64) returns (s: seq<byte>)
    ensures s == Large(u as int)
  {
    var secs, frac := SplitFrac(u, 9);
    var hours, mins, rest := secs / 3600, secs / 60 % 60, secs % 60;
    s := [];
    if hours > 0 {
      s := s + (Decimal(hours) + [104]);
    }
    if hours > 0 || mins > 0 {
      s := s + (Decimal(mins) + [109]);
    }
    s := s + (Decimal(rest) + frac + [115]);
  }

  method FormatDurationNanos(nanos: int) returns (out: seq<byte>)
    requires -TWO_63 <= nanos <= I64_MAX
    ensures out == Format(nanos)
  {
    var u := (if nanos < 0 then -nanos else nanos) as u64;
    out := [];
    if nanos < 0 {
      out := out + [45];
    }
    if u == 0 {
      return [ZERO, 115];
    }
    var text;
    if u < 1_000_000_000 {
      text := FormatSmall(u);
    } else {
      text := FormatLarge(u);
    }
    out := out + text;
  }
}
