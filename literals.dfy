/**
 * The pieces of Python's text handling that mfm.py relies on: `int(s)` and `float(s)` on
 * strings, `str.lower()`, `str.split(sep)`, `str(n)` and the `'{0:03d}'` format of integers.
 * Only ASCII is modelled: ASCII whitespace, ASCII digits, ASCII letters.
 */
module Literals {
  import opened Wrappers
  import opened Floats

  predicate IsDigit(c: char)
  {
    '0' <= c <= '9'
  }

  function DigitValue(c: char): nat
    requires IsDigit(c)
  {
    (c as int) - ('0' as int)
  }

  function DigitChar(d: nat): (c: char)
    requires d < 10
    ensures IsDigit(c) && DigitValue(c) == d
  {
    (('0' as int) + d) as char
  }

  /** The characters `str.strip()` removes (the ASCII ones): blank, tab, the line breaks, and the separators `\x1c` to `\x1f`. */
  predicate IsSpace(c: char)
  {
    c == ' ' || c == '\t' || c == '\n' || c == '\r' || c == '\U{B}' || c == '\U{C}' || ('\U{1C}' <= c <= '\U{1F}')
  }

  function StripLeft(s: string): (r: string)
    ensures |r| <= |s| && r == s[|s| - |r|..]
    ensures r == [] || !IsSpace(r[0])
  {
    if |s| > 0 && IsSpace(s[0]) then StripLeft(s[1..]) else s
  }

  function StripRight(s: string): (r: string)
    ensures |r| <= |s| && r == s[..|r|]
    ensures r == [] || !IsSpace(r[|r| - 1])
  {
    if |s| > 0 && IsSpace(s[|s| - 1]) then StripRight(s[..|s| - 1]) else s
  }

  /** `s.strip()`: the text without its leading and trailing whitespace. */
  function Strip(s: string): (r: string)
    ensures |r| <= |s|
    ensures r == [] || (!IsSpace(r[0]) && !IsSpace(r[|r| - 1]))
  {
    var l := StripLeft(s);
    var r := StripRight(l);
    assert r == [] || r[0] == l[0];
    r
  }

  /** Python's digit groups: digits, with single underscores allowed between two digits. */
  predicate IsDigitPart(s: string)
  {
    |s| > 0 && IsDigit(s[0]) && DigitTail(s[1..])
  }

  /** What may follow a digit inside a digit group: digits, each underscore followed by a digit. */
  predicate DigitTail(s: string)
    decreases |s|
  {
    if s == [] then true
    else if IsDigit(s[0]) then DigitTail(s[1..])
    else s[0] == '_' && |s| > 1 && IsDigit(s[1]) && DigitTail(s[2..])
  }

  /** The number written by the digits of `s`, underscores skipped. */
  function DigitsValue(s: string): nat
    decreases |s|
  {
    if s == [] then 0
    else if IsDigit(s[|s| - 1]) then DigitsValue(s[..|s| - 1]) * 10 + DigitValue(s[|s| - 1])
    else DigitsValue(s[..|s| - 1])
  }

  /** The number of digits of `s`, underscores skipped. */
  function DigitCount(s: string): nat
    decreases |s|
  {
    if s == [] then 0
    else if IsDigit(s[|s| - 1]) then DigitCount(s[..|s| - 1]) + 1
    else DigitCount(s[..|s| - 1])
  }

  function Signed(negative: bool, v: nat): int
  {
    if negative then -(v as int) else v
  }

  /** `int(t)` for a text without surrounding whitespace. */
  function ParseStrippedInt(t: string): Option<int>
  {
    if |t| > 0 && (t[0] == '+' || t[0] == '-') then
      if IsDigitPart(t[1..]) then Some(Signed(t[0] == '-', DigitsValue(t[1..])))
      else None
    else if IsDigitPart(t) then Some(DigitsValue(t))
    else None
  }

  /** `int(s)` on a string: `None` where Python raises `ValueError`. */
  function ParseInt(s: string): Option<int>
  {
    ParseStrippedInt(Strip(s))
  }

  /** `s.lower()` for ASCII letters. */
  function Lower(s: string): (r: string)
    ensures |r| == |s|
  {
    seq(|s|, k requires 0 <= k < |s| => if 'A' <= s[k] <= 'Z' then ((s[k] as int) + 32) as char else s[k])
  }

  function IndexOf(s: string, c: char): (r: Option<nat>)
    ensures r.Some? ==> r.value < |s| && s[r.value] == c && forall k :: 0 <= k < r.value ==> s[k] != c
    ensures r.None? ==> forall k :: 0 <= k < |s| ==> s[k] != c
  {
    if s == [] then None
    else if s[0] == c then Some(0)
    else match IndexOf(s[1..], c)
      case None => None
      case Some(k) => Some(k + 1)
  }

  /** `s.split(sep)`: the pieces between the separators, so one more piece than separators. */
  function Split(s: string, sep: char): (r: seq<string>)
    ensures |r| > 0
    decreases |s|
  {
    match IndexOf(s, sep)
    case None => [s]
    case Some(p) => [s[..p]] + Split(s[p + 1..], sep)
  }

  /** `s.count(c)` */
  function Occurrences(s: string, c: char): nat
    decreases |s|
  {
    if s == [] then 0 else (if s[0] == c then 1 else 0) + Occurrences(s[1..], c)
  }

  lemma {:induction false} OccurrencesAppend(a: string, b: string, c: char)
    ensures Occurrences(a + b, c) == Occurrences(a, c) + Occurrences(b, c)
    decreases |a|
  {
    if a == [] {
      assert a + b == b;
    } else {
      assert (a + b)[1..] == a[1..] + b;
      OccurrencesAppend(a[1..], b, c);
    }
  }

  lemma {:induction false} NoOccurrences(s: string, c: char)
    requires forall k :: 0 <= k < |s| ==> s[k] != c
    ensures Occurrences(s, c) == 0
    decreases |s|
  {
    if s != [] {
      NoOccurrences(s[1..], c);
    }
  }

  /** `s.split(sep)` has one piece more than `s` has separators. */
  lemma {:induction false} SplitLength(s: string, sep: char)
    ensures |Split(s, sep)| == Occurrences(s, sep) + 1
    decreases |s|
  {
    match IndexOf(s, sep)
    case None =>
      NoOccurrences(s, sep);
    case Some(p) =>
      assert s == s[..p] + ([sep] + s[p + 1..]);
      OccurrencesAppend(s[..p], [sep] + s[p + 1..], sep);
      OccurrencesAppend([sep], s[p + 1..], sep);
      NoOccurrences(s[..p], sep);
      SplitLength(s[p + 1..], sep);
  }

  /** `10 ** n` as an exact real, also for negative `n`. */
  function Pow10(n: int): (r: real)
    ensures r > 0.0
    decreases if n < 0 then -n else n
  {
    if n == 0 then 1.0 else if n > 0 then 10.0 * Pow10(n - 1) else Pow10(n + 1) / 10.0
  }

  /** The value of a decimal mantissa `digits[.digits]`, or `None` when it is not one. */
  function MantissaValue(m: string): Option<real>
  {
    match IndexOf(m, '.')
    case None => if IsDigitPart(m) then Some(DigitsValue(m) as real) else None
    case Some(p) =>
      var ip, fp := m[..p], m[p + 1..];
      if (ip == [] || IsDigitPart(ip)) && (fp == [] || IsDigitPart(fp)) && (ip != [] || fp != []) then
        Some(DigitsValue(ip) as real + (DigitsValue(fp) as real) / Pow10(DigitCount(fp)))
      else None
  }

  /** The value of an unsigned decimal float `mantissa[(e|E)[sign]digits]`. */
  function DecimalValue(b: string): Option<real>
  {
    var l := Lower(b);
    match IndexOf(l, 'e')
    case None => MantissaValue(b)
    case Some(p) =>
      var mant, ex := b[..p], b[p + 1..];
      var expo :=
        if |ex| > 0 && (ex[0] == '+' || ex[0] == '-') then
          (if IsDigitPart(ex[1..]) then Some(Signed(ex[0] == '-', DigitsValue(ex[1..]))) else None)
        else if IsDigitPart(ex) then Some(DigitsValue(ex) as int)
        else None;
      match (MantissaValue(mant), expo)
      case (Some(v), Some(n)) => Some(v * Pow10(n))
      case _ => None
  }

  /** `float(s)` on a string: `None` where Python raises `ValueError`. Values are exact; rounding is not modelled. */
  function ParseFloat(s: string): Option<Float>
  {
    var t := Strip(s);
    var negative := |t| > 0 && t[0] == '-';
    var body := if |t| > 0 && (t[0] == '+' || t[0] == '-') then t[1..] else t;
    var word := Lower(body);
    if word == "inf" || word == "infinity" then Some(if negative then NegInf else PosInf)
    else if word == "nan" then Some(NaN)
    else match DecimalValue(body)
      case None => None
      case Some(v) => Some(Finite(if negative then -v else v))
  }

  /** The decimal digits of `n`, without leading zeros. */
  function Decimal(n: nat): (s: string)
    ensures |s| > 0 && forall k :: 0 <= k < |s| ==> IsDigit(s[k])
  {
    if n < 10 then [DigitChar(n)] else Decimal(n / 10) + [DigitChar(n % 10)]
  }

  /** `str(n)` */
  function IntToText(n: int): string
  {
    if n < 0 then "-" + Decimal(-n) else Decimal(n)
  }

  function Zeros(k: nat): (z: string)
    ensures |z| == k && forall j :: 0 <= j < k ==> z[j] == '0'
  {
    seq(k, _ => '0')
  }

  /** `'{0:03d}'.format(n)`: zero-padded to three characters, the sign counted. */
  function Pad3(n: int): string
  {
    if n < 0 then
      var d := Decimal(-n);
      "-" + (if |d| < 2 then Zeros(2 - |d|) else []) + d
    else
      var d := Decimal(n);
      (if |d| < 3 then Zeros(3 - |d|) else []) + d
  }

  lemma {:induction false} DecimalValueOf(n: nat)
    ensures DigitsValue(Decimal(n)) == n
  {
    if n >= 10 {
      var s := Decimal(n / 10) + [DigitChar(n % 10)];
      assert s[..|s| - 1] == Decimal(n / 10);
      DecimalValueOf(n / 10);
    }
  }

  /** Leading zeros do not change the value of a digit string. */
  lemma {:induction false} LeadingZeros(k: nat, s: string)
    ensures DigitsValue(Zeros(k) + s) == DigitsValue(s)
    decreases |s|, k
  {
    if s == [] {
      assert Zeros(k) + s == Zeros(k);
      if k > 0 {
        assert Zeros(k)[..k - 1] == Zeros(k - 1);
        LeadingZeros(k - 1, []);
        assert Zeros(k - 1) + [] == Zeros(k - 1);
      }
    } else {
      var t := Zeros(k) + s;
      assert t[..|t| - 1] == Zeros(k) + s[..|s| - 1];
      assert t[|t| - 1] == s[|s| - 1];
      LeadingZeros(k, s[..|s| - 1]);
    }
  }

  lemma {:induction false} AllDigitsTail(s: string)
    requires forall k :: 0 <= k < |s| ==> IsDigit(s[k])
    ensures DigitTail(s)
    decreases |s|
  {
    if s != [] {
      AllDigitsTail(s[1..]);
    }
  }

  lemma AllDigitsIsDigitPart(s: string)
    requires |s| > 0 && forall k :: 0 <= k < |s| ==> IsDigit(s[k])
    ensures IsDigitPart(s)
  {
    AllDigitsTail(s[1..]);
  }

  /** A digit string is left alone by `strip()`. */
  lemma StripDigits(s: string)
    requires |s| > 0 && forall k :: 0 <= k < |s| ==> IsDigit(s[k])
    ensures Strip(s) == s
  {
    assert StripLeft(s) == s;
    assert StripRight(s) == s;
  }

  /** `int(str(n)) == n` */
  lemma IntRoundTrip(n: int)
    ensures ParseInt(IntToText(n)) == Some(n)
  {
    if n < 0 {
      NegativeIntRoundTrip(n);
    } else {
      NonNegativeIntRoundTrip(n);
    }
  }

  lemma NegativeIntRoundTrip(n: int)
    requires n < 0
    ensures ParseInt(IntToText(n)) == Some(n)
  {
    var m: nat := -n;
    var d := Decimal(m);
    var t := IntToText(n);
    assert t == "-" + d;
    NegativeText(d);
    assert t[1..] == d;
    AllDigitsIsDigitPart(d);
    DecimalValueOf(m);
    assert ParseStrippedInt(t) == Some(Signed(true, DigitsValue(d)));
  }

  lemma NonNegativeIntRoundTrip(n: int)
    requires n >= 0
    ensures ParseInt(IntToText(n)) == Some(n)
  {
    assert IntToText(n) == Decimal(n);
    DecimalRoundTrip(n);
  }

  lemma DecimalRoundTrip(n: nat)
    ensures ParseInt(Decimal(n)) == Some(n as int)
  {
    ParseDigits(Decimal(n));
    DecimalValueOf(n);
  }

  lemma NegativeText(d: string)
    requires |d| > 0 && forall k :: 0 <= k < |d| ==> IsDigit(d[k])
    ensures ParseInt("-" + d) == ParseStrippedInt("-" + d)
  {
    var t := "-" + d;
    assert !IsSpace(t[0]) && !IsSpace(t[|t| - 1]);
    assert StripLeft(t) == t;
    assert StripRight(t) == t;
  }

  /** An unsigned digit string parses as the number it writes. */
  lemma ParseDigits(s: string)
    requires |s| > 0 && forall k :: 0 <= k < |s| ==> IsDigit(s[k])
    ensures ParseInt(s) == Some(DigitsValue(s))
  {
    ParseIntOfStripped(s);
    ParseStrippedDigits(s);
  }

  lemma ParseIntOfStripped(s: string)
    requires |s| > 0 && forall k :: 0 <= k < |s| ==> IsDigit(s[k])
    ensures ParseInt(s) == ParseStrippedInt(s)
  {
    StripDigits(s);
  }

  lemma ParseStrippedDigits(s: string)
    requires |s| > 0 && forall k :: 0 <= k < |s| ==> IsDigit(s[k])
    ensures ParseStrippedInt(s) == Some(DigitsValue(s))
  {
    AllDigitsIsDigitPart(s);
    assert !(s[0] == '+' || s[0] == '-') by {
      assert IsDigit(s[0]);
    }
  }

  lemma Pad3Digits(n: nat)
    ensures var d := Decimal(n);
      Pad3(n) == (if |d| < 3 then Zeros(3 - |d|) + d else d)
    ensures |Pad3(n)| >= 3 && forall k :: 0 <= k < |Pad3(n)| ==> IsDigit(Pad3(n)[k])
  {
    var d := Decimal(n);
    if |d| >= 3 {
      assert [] + d == d;
    }
  }

  /** `int('{0:03d}'.format(n)) == n` for a non-negative `n`. */
  lemma Pad3RoundTrip(n: nat)
    ensures ParseInt(Pad3(n)) == Some(n)
    ensures |Pad3(n)| >= 3 && forall k :: 0 <= k < |Pad3(n)| ==> IsDigit(Pad3(n)[k])
  {
    var d := Decimal(n);
    Pad3Digits(n);
    ParseDigits(Pad3(n));
    DecimalValueOf(n);
    if |d| < 3 {
      LeadingZeros(3 - |d|, d);
    }
  }

  /** A separator-free text splits into itself alone. */
  lemma SplitNoSeparator(s: string, sep: char)
    requires forall k :: 0 <= k < |s| ==> s[k] != sep
    ensures Split(s, sep) == [s]
  {
  }

  /** The first separator of `a + [sep] + b`, when `a` has none, is the one after `a`. */
  lemma SeparatorAfter(a: string, b: string, sep: char)
    requires forall k :: 0 <= k < |a| ==> a[k] != sep
    ensures IndexOf(a + [sep] + b, sep) == Some(|a|)
  {
    var s := a + [sep] + b;
    assert s[|a|] == sep;
    forall k | 0 <= k < |a|
      ensures s[k] != sep
    {
      assert s[k] == a[k];
    }
  }

  /** Two separator-free texts joined by one separator split back into the two. */
  lemma SplitPair(a: string, b: string, sep: char)
    requires forall k :: 0 <= k < |a| ==> a[k] != sep
    requires forall k :: 0 <= k < |b| ==> b[k] != sep
    ensures Split(a + [sep] + b, sep) == [a, b]
  {
    var s := a + [sep] + b;
    SeparatorAfter(a, b, sep);
    assert s[..|a|] == a;
    assert s[|a| + 1..] == b;
    SplitNoSeparator(b, sep);
  }

  /** Exactly two pieces means exactly one separator: the pieces are the text on either side of it. */
  lemma SplitTwo(s: string, sep: char)
    requires |Split(s, sep)| == 2
    ensures var r := Split(s, sep);
      s == r[0] + [sep] + r[1]
      && (forall k :: 0 <= k < |r[0]| ==> r[0][k] != sep)
      && (forall k :: 0 <= k < |r[1]| ==> r[1][k] != sep)
  {
    var p := IndexOf(s, sep).value;
    assert s == s[..p] + [sep] + s[p + 1..];
    var rest := s[p + 1..];
    assert |Split(rest, sep)| == 1;
    assert IndexOf(rest, sep).None?;
  }
}
