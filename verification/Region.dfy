/** The hand-written recogniser of region codes, and the regular expression it
    stands for. Strings are sequences of characters; a character outside ASCII
    is neither a lower-case letter nor a digit. */
module Region {

  // ----- regular expressions -----

  datatype Re = Class(lo: char, hi: char) | Cat(a: Re, b: Re) | Plus(a: Re)

  ghost predicate Matches(r: Re, s: string)
    decreases r, |s|
  {
    match r
    case Class(lo, hi) => |s| == 1 && lo <= s[0] <= hi
    case Cat(a, b) => exists i :: 0 <= i <= |s| && Matches(a, s[..i]) && Matches(b, s[i..])
    case Plus(a) => Matches(a, s) || exists i :: 0 < i < |s| && Matches(a, s[..i]) && Matches(r, s[i..])
  }

  const LOWER := Class('a', 'z')
  const DIGIT := Class('0', '9')
  const DASH := Class('-', '-')
  const WORDS := Plus(Cat(DASH, Plus(LOWER)))

  /** `^[a-z]{2}(-[a-z]+)+-\d$` */
  const REGION := Cat(Cat(LOWER, LOWER), Cat(WORDS, Cat(DASH, DIGIT)))

  // ----- splitting on dashes -----

  function Split(s: string): (parts: seq<string>)
    ensures |parts| >= 1
  {
    if s == "" then [""] else Front(s[0], Split(s[1..]))
  }

  /** Puts a character in front: a dash starts a new part. */
  function Front(c: char, parts: seq<string>): (r: seq<string>)
    requires |parts| >= 1
    ensures |r| >= 1
  {
    if c == '-' then [""] + parts else [[c] + parts[0]] + parts[1..]
  }

  lemma FrontCat(c: char, p: seq<string>, q: seq<string>)
    requires |p| >= 1
    ensures Front(c, p + q) == Front(c, p) + q
  {
    assert (p + q)[0] == p[0] && (p + q)[1..] == p[1..] + q;
  }

  lemma SplitStep(s: string)
    requires s != ""
    ensures Split(s) == Front(s[0], Split(s[1..]))
  {
  }

  predicate AllLower(s: string) {
    forall i :: 0 <= i < |s| ==> 'a' <= s[i] <= 'z'
  }

  predicate Word(s: string) {
    s != "" && AllLower(s)
  }

  predicate ShapedParts(parts: seq<string>) {
    && |parts| >= 3
    && |parts[0]| == 2 && AllLower(parts[0])
    && (forall i :: 1 <= i < |parts| - 1 ==> Word(parts[i]))
    && |parts[|parts| - 1]| == 1 && '0' <= parts[|parts| - 1][0] <= '9'
  }

  /** A dash starts a new part. */
  lemma {:induction false} SplitAt(s: string, k: nat)
    requires k < |s| && s[k] == '-'
    ensures Split(s) == Split(s[..k]) + Split(s[k + 1..])
  {
    assert Split("") == [""];
    hide Split;
    SplitStep(s);
    if k == 0 {
      assert s[..0] == "";
    } else {
      hide Front;
      var a, c, s' := s[..k], s[k + 1..], s[1..];
      SplitAt(s', k - 1);
      assert a[1..] == s'[..k - 1] && c == s'[k..] && a[0] == s[0];
      SplitStep(a);
      FrontCat(a[0], Split(a[1..]), Split(c));
    }
  }

  lemma SplitCat(a: string, c: string)
    ensures Split(a + "-" + c) == Split(a) + Split(c)
  {
    hide Split;
    var s := a + "-" + c;
    SplitAt(s, |a|);
    assert s[..|a|] == a && s[|a| + 1..] == c;
  }

  lemma {:induction false} SplitPlain(s: string)
    requires forall i :: 0 <= i < |s| ==> s[i] != '-'
    ensures Split(s) == [s]
  {
    if s != "" {
      SplitPlain(s[1..]);
      assert [s[0]] + s[1..] == s;
    }
  }

  /** What comes after the first dash splits into the other parts. */
  lemma {:induction false} SplitHead(s: string) returns (rest: string)
    ensures |Split(s)| == 1 ==> s == Split(s)[0]
    ensures |Split(s)| > 1 ==> s == Split(s)[0] + "-" + rest && Split(rest) == Split(s)[1..]
  {
    if s == "" {
      rest := "";
    } else {
      SplitStep(s);
      hide Split;
      if s[0] == '-' {
        rest := s[1..];
        assert s == "" + "-" + rest;
      } else {
        rest := SplitHead(s[1..]);
        var q := Split(s[1..]);
        assert s == [s[0]] + s[1..];
        assert |q| > 1 ==> [s[0]] + (q[0] + "-" + rest) == ([s[0]] + q[0]) + "-" + rest;
      }
    }
  }

  /** What comes before the last dash splits into the other parts. */
  lemma {:induction false} SplitLast(s: string) returns (init: string)
    requires |Split(s)| > 1
    ensures s == init + "-" + Split(s)[|Split(s)| - 1] && Split(init) == Split(s)[..|Split(s)| - 1]
    ensures Split(Split(s)[|Split(s)| - 1]) == [Split(s)[|Split(s)| - 1]]
    decreases |s|
  {
    hide Split;
    var rest := SplitHead(s);
    var head, parts := Split(s)[0], Split(s);
    assert parts == [head] + Split(rest);
    assert |rest| < |s|;
    SplitCat(head, rest);
    assert Split(head) == [head] by {
      assert |Split(head)| == 1 && parts[0] == Split(head)[0];
    }
    if |Split(rest)| == 1 {
      var _ := SplitHead(rest);
      init := head;
    } else {
      var init' := SplitLast(rest);
      init := head + "-" + init';
      SplitCat(head, init');
      assert parts[..|parts| - 1] == [head] + Split(rest)[..|parts| - 2];
      assert parts[|parts| - 1] == Split(rest)[|parts| - 2];
    }
  }

  // ----- the expression, piece by piece -----

  lemma {:induction false} PlusLower(s: string)
    ensures Matches(Plus(LOWER), s) <==> Word(s)
    decreases |s|
  {
    if |s| > 1 {
      forall i | 0 < i < |s|
        ensures Matches(LOWER, s[..i]) && Matches(Plus(LOWER), s[i..]) <==> Matches(LOWER, s[..i]) && Word(s[i..])
      {
        PlusLower(s[i..]);
      }
      assert Word(s) ==> Matches(LOWER, s[..1]) && Word(s[1..]);
      assert forall i :: 0 < i < |s| && Matches(LOWER, s[..i]) && Word(s[i..]) ==> s == s[..i] + s[i..] && AllLower(s);
    }
  }

  lemma DashWord(s: string)
    ensures Matches(Cat(DASH, Plus(LOWER)), s) <==> s != "" && s[0] == '-' && Word(s[1..])
  {
    if Matches(Cat(DASH, Plus(LOWER)), s) {
      var i :| 0 <= i <= |s| && Matches(DASH, s[..i]) && Matches(Plus(LOWER), s[i..]);
      PlusLower(s[i..]);
    }
    if s != "" && s[0] == '-' && Word(s[1..]) {
      PlusLower(s[1..]);
      assert Matches(DASH, s[..1]);
    }
  }

  predicate AllWords(parts: seq<string>) {
    forall i :: 0 <= i < |parts| ==> Word(parts[i])
  }

  lemma {:induction false} WordsSplit(s: string)
    requires Matches(WORDS, s)
    ensures s != "" && s[0] == '-' && AllWords(Split(s[1..]))
    decreases |s|
  {
    DashWord(s);
    hide Split;
    if Matches(Cat(DASH, Plus(LOWER)), s) {
      SplitPlain(s[1..]);
    } else {
      var i :| 0 < i < |s| && Matches(Cat(DASH, Plus(LOWER)), s[..i]) && Matches(WORDS, s[i..]);
      DashWord(s[..i]);
      WordsSplit(s[i..]);
      var w, c := s[..i][1..], s[i..][1..];
      SplitPlain(w);
      SplitCat(w, c);
      assert s[1..] == w + "-" + c;
    }
  }

  lemma {:induction false} SplitWords(c: string)
    requires AllWords(Split(c))
    ensures Matches(WORDS, "-" + c)
    decreases |c|
  {
    var s, w := "-" + c, Split(c)[0];
    var rest := SplitHead(c);
    if |Split(c)| == 1 {
      DashWord(s);
      assert s[1..] == c;
    } else {
      SplitWords(rest);
      var i := 1 + |w|;
      assert s[..i] == "-" + w && s[i..] == "-" + rest && s[..i][1..] == w;
      DashWord(s[..i]);
    }
  }

  lemma TwoLower(s: string)
    ensures Matches(Cat(LOWER, LOWER), s) <==> |s| == 2 && AllLower(s)
  {
    if |s| == 2 && AllLower(s) {
      assert Matches(LOWER, s[..1]) && Matches(LOWER, s[1..]);
    }
  }

  lemma DashDigit(s: string)
    ensures Matches(Cat(DASH, DIGIT), s) <==> |s| == 2 && s[0] == '-' && '0' <= s[1] <= '9'
  {
    if |s| == 2 && s[0] == '-' && '0' <= s[1] <= '9' {
      assert Matches(DASH, s[..1]) && Matches(DIGIT, s[1..]);
    }
  }

  lemma CatPoint(a: Re, b: Re, s: string) returns (i: nat)
    requires Matches(Cat(a, b), s)
    ensures i <= |s| && Matches(a, s[..i]) && Matches(b, s[i..])
  {
    i :| 0 <= i <= |s| && Matches(a, s[..i]) && Matches(b, s[i..]);
  }

  lemma Rejoin(p: string, x: string, y: string)
    requires x != "" && x[0] == '-' && y != "" && y[0] == '-'
    ensures p + (x + y) == p + "-" + (x[1..] + "-" + y[1..])
  {
    assert x == "-" + x[1..] && y == "-" + y[1..];
  }

  /** The three pieces of a match. */
  lemma MatchPieces(s: string) returns (p: string, c: string, d: string)
    requires Matches(REGION, s)
    ensures s == p + "-" + (c + "-" + d)
    ensures |p| == 2 && AllLower(p) && AllWords(Split(c)) && |d| == 1 && '0' <= d[0] <= '9'
  {
    hide Matches, Split;
    var i := CatPoint(Cat(LOWER, LOWER), Cat(WORDS, Cat(DASH, DIGIT)), s);
    var t := s[i..];
    var j := CatPoint(WORDS, Cat(DASH, DIGIT), t);
    p := s[..i];
    TwoLower(p);
    WordsSplit(t[..j]);
    DashDigit(t[j..]);
    c, d := t[..j][1..], t[j..][1..];
    Rejoin(p, t[..j], t[j..]);
    assert s == p + (t[..j] + t[j..]);
  }

  lemma MatchIsShaped(s: string)
    requires Matches(REGION, s)
    ensures ShapedParts(Split(s))
  {
    var p, c, d := MatchPieces(s);
    hide Matches;
    SplitCat(p, c + "-" + d);
    SplitCat(c, d);
    SplitPlain(p);
    SplitPlain(d);
    assert Split(s) == [p] + (Split(c) + [d]);
  }

  lemma CatMatches(a: Re, b: Re, s: string, t: string)
    requires Matches(a, s) && Matches(b, t)
    ensures Matches(Cat(a, b), s + t)
  {
    assert (s + t)[..|s|] == s && (s + t)[|s|..] == t;
  }

  lemma ShapedMatches(s: string)
    requires ShapedParts(Split(s))
    ensures Matches(REGION, s)
  {
    hide Matches;
    var p, c, d := ShapedPieces(s);
    SplitWords(c);
    DashDigit("-" + d);
    TwoLower(p);
    CatMatches(WORDS, Cat(DASH, DIGIT), "-" + c, "-" + d);
    CatMatches(Cat(LOWER, LOWER), Cat(WORDS, Cat(DASH, DIGIT)), p, "-" + c + ("-" + d));
    assert s == p + ("-" + c + ("-" + d));
  }

  lemma ShapedPieces(s: string) returns (p: string, c: string, d: string)
    requires ShapedParts(Split(s))
    ensures s == p + "-" + c + "-" + d
    ensures |p| == 2 && AllLower(p) && AllWords(Split(c)) && |d| == 1 && '0' <= d[0] <= '9'
  {
    hide Split;
    var parts := Split(s);
    var init := SplitLast(s);
    d, p := parts[|parts| - 1], parts[0];
    c := SplitHead(init);
    assert forall i :: 0 <= i < |Split(c)| ==> Split(c)[i] == parts[i + 1];
  }

  // ----- the recogniser -----

  function ToLower(c: char): char {
    if 'A' <= c <= 'Z' then c - 'A' + 'a' else c
  }

  predicate EqIgnoreAsciiCase(s: string, t: string) {
    |s| == |t| && forall i :: 0 <= i < |s| ==> ToLower(s[i]) == ToLower(t[i])
  }

  /** Splits from the left, one character at a time. */
  method SplitOnDash(s: string) returns (parts: seq<string>)
    ensures parts == Split(s)
  {
    hide Split;
    parts := [];
    var part := "";
    assert "" + s[0..] == s && [] + Split(s) == Split(s);
    for i := 0 to |s|
      invariant parts + Split(part + s[i..]) == Split(s)
      invariant forall k :: 0 <= k < |part| ==> part[k] != '-'
    {
      assert s[i..] == [s[i]] + s[i + 1..];
      if s[i] == '-' {
        SplitPlain(part);
        SplitCat(part, s[i + 1..]);
        assert part + s[i..] == part + "-" + s[i + 1..];
        parts := parts + [part];
        part := "";
        assert "" + s[i + 1..] == s[i + 1..];
      } else {
        assert part + s[i..] == (part + [s[i]]) + s[i + 1..];
        part := part + [s[i]];
      }
    }
    assert part + s[|s|..] == part;
    SplitPlain(part);
    parts := parts + [part];
  }

  /** The recogniser accepts exactly `global` in any case and the strings of the
      regular expression. */
  method IsRegionShaped(value: string) returns (ok: bool)
    ensures ok <==> EqIgnoreAsciiCase(value, "global") || Matches(REGION, value)
  {
    if EqIgnoreAsciiCase(value, "global") {
      return true;
    }
    var parts := SplitOnDash(value);
    if ShapedParts(parts) {
      ShapedMatches(value);
    }
    if Matches(REGION, value) {
      MatchIsShaped(value);
    }
    var prefix := parts[0];
    if |prefix| != 2 || !AllLower(prefix) {
      return false;
    }
    var rest := parts[1..];
    if rest == [] {
      return false;
    }
    var digit, words := rest[|rest| - 1], rest[..|rest| - 1];
    if words == [] {
      return false;
    }
    ok := |digit| == 1 && '0' <= digit[0] <= '9' && AllWords(words);
    assert forall i :: 0 <= i < |words| ==> words[i] == parts[i + 1];
    assert forall i :: 1 <= i < |parts| - 1 ==> parts[i] == words[i - 1];
  }
}
