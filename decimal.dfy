/** Python's `float(s)` on a string, restricted to plain decimal notation:
    surrounding whitespace, an optional sign, digits with at most one point.
    A string it cannot read is `None` (Python raises `ValueError`). */
module Decimal {
  import opened Text

  function DigitValue(c: char): (d: nat)
    requires IsDigit(c)
    ensures d < 10
  {
    c as int - '0' as int
  }

  function DigitChar(d: nat): (c: char)
    requires d < 10
    ensures IsDigit(c) && DigitValue(c) == d
  {
    ('0' as int + d) as char
  }

  /** The value of a string of decimal digits, most significant digit first. */
  function DigitsValue(s: string): nat
    requires AllDigits(s)
  {
    if s == [] then 0 else DigitsValue(s[..|s| - 1]) * 10 + DigitValue(s[|s| - 1])
  }

  function Pow10(n: nat): (r: nat)
    ensures r >= 1
  {
    if n == 0 then 1 else 10 * Pow10(n - 1)
  }

  /** The whitespace `float()` strips from both ends: every character Python
      counts as whitespace except the separators U+001C to U+001F, which
      `str.isspace` accepts but `float()` leaves in place. */
  predicate IsFloatSpace(c: char) {
    IsSpace(c) && !('\U{1C}' <= c <= '\U{1F}')
  }

  /** The number of whitespace characters `s` starts with. */
  function LeadingSpaces(s: string): (k: nat)
    ensures k <= |s| && (k == |s| || !IsFloatSpace(s[k]))
    ensures forall i :: 0 <= i < k ==> IsFloatSpace(s[i])
  {
    if s != [] && IsFloatSpace(s[0]) then 1 + LeadingSpaces(s[1..]) else 0
  }

  /** The length of `s` without the whitespace it ends with. */
  function TrailingStart(s: string): (k: nat)
    ensures k <= |s| && (k == 0 || !IsFloatSpace(s[k - 1]))
    ensures forall i :: k <= i < |s| ==> IsFloatSpace(s[i])
  {
    if s != [] && IsFloatSpace(s[|s| - 1]) then TrailingStart(s[..|s| - 1]) else |s|
  }

  function TrimStart(s: string): string {
    s[LeadingSpaces(s)..]
  }

  function TrimEnd(s: string): string {
    s[..TrailingStart(s)]
  }

  /** Leading and trailing whitespace removed, as `float()` does first. */
  function Strip(s: string): string {
    TrimEnd(TrimStart(s))
  }

  /** An unsigned decimal literal: digits, at most one point, at least one digit. */
  function UnsignedValue(s: string): (r: Option<real>)
    ensures r.Some? ==> r.value >= 0.0
  {
    match LastIndexOf(s, '.')
    case None =>
      if s != [] && AllDigits(s) then Some(DigitsValue(s) as real) else None
    case Some(p) =>
      var whole, frac := s[..p], s[p + 1..];
      if AllDigits(whole) && AllDigits(frac) && |whole| + |frac| > 0 then
        Some(DigitsValue(whole) as real + DigitsValue(frac) as real / Pow10(|frac|) as real)
      else None
  }

  /** `float(s)`: `None` where Python raises `ValueError`. */
  function ParseDecimal(s: string): Option<real> {
    var t := Strip(s);
    if t != [] && (t[0] == '+' || t[0] == '-') then
      match UnsignedValue(t[1..])
      case None => None
      case Some(v) => Some(if t[0] == '-' then -v else v)
    else
      UnsignedValue(t)
  }

  /** The decimal representation of a natural number, without leading zeros. */
  function NatToString(n: nat): (s: string)
    ensures s != [] && AllDigits(s)
  {
    if n < 10 then [DigitChar(n)] else NatToString(n / 10) + [DigitChar(n % 10)]
  }

  lemma {:induction false} DigitsValueOfNatToString(n: nat)
    ensures DigitsValue(NatToString(n)) == n
  {
    if n >= 10 {
      var s := NatToString(n);
      assert s[..|s| - 1] == NatToString(n / 10);
      DigitsValueOfNatToString(n / 10);
    }
  }

  lemma StripDigits(s: string)
    requires AllDigits(s)
    ensures Strip(s) == s
  {
    assert s == [] || !IsFloatSpace(s[0]);
    assert TrimStart(s) == s;
    assert s == [] || !IsFloatSpace(s[|s| - 1]);
  }

  /** Reading back a formatted natural number gives that number. */
  lemma ParseNatToString(n: nat)
    ensures ParseDecimal(NatToString(n)) == Some(n as real)
  {
    var s := NatToString(n);
    StripDigits(s);
    DigitsValueOfNatToString(n);
  }

  /** The text "0" reads as zero. */
  lemma ParseZero()
    ensures ParseDecimal("0") == Some(0.0)
  {
    ParseNatToString(0);
    assert NatToString(0) == "0";
  }

  predicate DigitsAndPoints(s: string) {
    forall k :: 0 <= k < |s| ==> IsDigit(s[k]) || s[k] == '.'
  }

  predicate HasDigit(s: string) {
    exists k :: 0 <= k < |s| && IsDigit(s[k])
  }

  predicate AtMostOnePoint(s: string) {
    forall i, j :: 0 <= i < j < |s| && s[i] == '.' ==> s[j] != '.'
  }

  lemma WholePartDigits(s: string, p: nat)
    requires DigitsAndPoints(s) && p < |s| && s[p] == '.' && '.' !in s[p + 1..]
    ensures AllDigits(s[..p]) <==> AtMostOnePoint(s)
  {
    if AllDigits(s[..p]) {
      forall i, j | 0 <= i < j < |s| && s[i] == '.' ensures s[j] != '.' {
        if i == p { assert s[p + 1..][j - p - 1] == s[j]; }
      }
    } else {
      var i :| 0 <= i < p && !IsDigit(s[..p][i]);
      assert s[i] == '.';
    }
  }

  lemma LiteralHasDigit(s: string, p: nat)
    requires DigitsAndPoints(s) && p < |s| && s[p] == '.' && AllDigits(s[..p]) && AllDigits(s[p + 1..])
    ensures |s[..p]| + |s[p + 1..]| > 0 <==> HasDigit(s)
  {
    if p > 0 { assert IsDigit(s[..p][0]); }
    else if p + 1 < |s| { assert IsDigit(s[p + 1..][0]); }
    else { forall k | 0 <= k < |s| ensures !IsDigit(s[k]) { assert k == p; } }
  }

  /** A string of digits and points is read as it stands: no whitespace to
      strip and no sign. */
  lemma DigitsAndPointsUnsigned(s: string)
    requires DigitsAndPoints(s)
    ensures ParseDecimal(s) == UnsignedValue(s)
  {
    assert s == [] || !IsFloatSpace(s[0]);
    assert TrimStart(s) == s;
    assert s == [] || !IsFloatSpace(s[|s| - 1]);
    assert Strip(s) == s;
  }

  lemma DigitsWithoutPoint(s: string)
    requires DigitsAndPoints(s) && '.' !in s
    ensures UnsignedValue(s).Some? <==> HasDigit(s) && AtMostOnePoint(s)
  {
    assert AllDigits(s);
    if s != [] { assert IsDigit(s[0]); }
  }

  lemma DigitsWithPoint(s: string, p: nat)
    requires DigitsAndPoints(s) && p < |s| && s[p] == '.' && '.' !in s[p + 1..]
    ensures UnsignedValue(s).Some? <==> HasDigit(s) && AtMostOnePoint(s)
  {
    assert LastIndexOf(s, '.') == Some(p);
    assert AllDigits(s[p + 1..]);
    WholePartDigits(s, p);
    if AllDigits(s[..p]) { LiteralHasDigit(s, p); }
  }

  /** On a string of digits and points (all the field parser ever produces),
      `float()` succeeds exactly when there is a digit and at most one point. */
  lemma DigitsAndPointsReadable(s: string)
    requires DigitsAndPoints(s)
    ensures ParseDecimal(s).Some? <==> HasDigit(s) && AtMostOnePoint(s)
  {
    DigitsAndPointsUnsigned(s);
    match LastIndexOf(s, '.')
    case None => DigitsWithoutPoint(s);
    case Some(p) => DigitsWithPoint(s, p);
  }

  lemma PointAloneUnreadable()
    ensures ParseDecimal(".") == None
  {
    DigitsAndPointsReadable(".");
  }

  lemma TwoPointsUnreadable()
    ensures ParseDecimal("1.2.3") == None
  {
    var s := "1.2.3";
    assert DigitsAndPoints(s) by {
      forall k | 0 <= k < |s| ensures IsDigit(s[k]) || s[k] == '.' {
        assert k == 0 || k == 1 || k == 2 || k == 3 || k == 4;
      }
    }
    assert s[1] == '.' && s[3] == '.';
    assert !AtMostOnePoint(s);
    DigitsAndPointsReadable(s);
  }

  /** A file separator U+001C before the digits is not stripped, so the text
      does not read. */
  lemma SeparatorNotStripped()
    ensures ParseDecimal("\U{1C}5000") == None
  {
    var s := "\U{1C}5000";
    assert LeadingSpaces(s) == 0 && TrailingStart(s) == 5;
    assert Strip(s) == s;
    assert !AllDigits(s);
  }

  /** A leading space and a trailing newline are stripped. */
  lemma SpacesStripped()
    ensures ParseDecimal(" 5000\n") == Some(5000.0)
  {
    var u := " 5000\n";
    StripSpaceAndNewline(u);
    FiveThousand(Strip(u));
  }

  lemma StripSpaceAndNewline(u: string)
    requires u == " 5000\n"
    ensures Strip(u) == "5000"
  {
    assert LeadingSpaces(u) == 1;
    assert TrailingStart(u[1..]) == 4;
  }

  lemma FiveThousand(t: string)
    requires t == "5000"
    ensures UnsignedValue(t) == Some(5000.0)
  {
    var d1: string := ['5'];
    assert DigitsValue(d1) == 5 by { assert d1[..0] == []; }
    DigitsValueAppend(d1, '0');
    DigitsValueAppend(d1 + ['0'], '0');
    DigitsValueAppend(d1 + ['0'] + ['0'], '0');
    assert t == d1 + ['0'] + ['0'] + ['0'];
    assert '.' !in t;
  }

  /** A value with a fractional part: "125000.50" reads as 125000.5. */
  lemma FractionExample()
    ensures ParseDecimal("125000.50") == Some(125000.5)
  {
    var s := "125000.50";
    FractionDigits(s);
    DigitsAndPointsUnsigned(s);
    FractionUnsigned(s);
  }

  lemma FractionDigits(s: string)
    requires s == "125000.50"
    ensures DigitsAndPoints(s)
  {
    forall k | 0 <= k < |s| ensures IsDigit(s[k]) || s[k] == '.' {
      assert k == 0 || k == 1 || k == 2 || k == 3 || k == 4 || k == 5 || k == 6 || k == 7 || k == 8;
    }
  }

  lemma FractionUnsigned(s: string)
    requires s == "125000.50"
    ensures UnsignedValue(s) == Some(125000.5)
  {
    FractionPoint(s);
    WholeAndFraction(s[..6], s[7..]);
    UnsignedWithPoint(s, 6);
  }

  lemma FractionPoint(s: string)
    requires s == "125000.50"
    ensures LastIndexOf(s, '.') == Some(6) && s[..6] == "125000" && s[7..] == "50"
  {
    assert s[6] == '.';
  }

  /** The value of a literal with its point at `p`. */
  lemma UnsignedWithPoint(s: string, p: nat)
    requires LastIndexOf(s, '.') == Some(p) && 0 < p && AllDigits(s[..p]) && AllDigits(s[p + 1..])
    ensures UnsignedValue(s)
         == Some(DigitsValue(s[..p]) as real + DigitsValue(s[p + 1..]) as real / Pow10(|s[p + 1..]|) as real)
  {
  }

  /** Appending a digit multiplies the value by ten and adds the digit. */
  lemma DigitsValueAppend(s: string, c: char)
    requires AllDigits(s) && IsDigit(c)
    ensures AllDigits(s + [c]) && DigitsValue(s + [c]) == DigitsValue(s) * 10 + DigitValue(c)
  {
    assert (s + [c])[..|s|] == s;
  }

  lemma WholeValue(whole: string)
    requires whole == "125000"
    ensures AllDigits(whole) && DigitsValue(whole) == 125000
  {
    var d1: string := ['1'];
    assert DigitsValue(d1) == 1 by { assert d1[..0] == []; }
    var d2 := d1 + ['2'];
    DigitsValueAppend(d1, '2');
    var d3 := d2 + ['5'];
    DigitsValueAppend(d2, '5');
    var d4 := d3 + ['0'];
    DigitsValueAppend(d3, '0');
    var d5 := d4 + ['0'];
    DigitsValueAppend(d4, '0');
    DigitsValueAppend(d5, '0');
    assert whole == d5 + ['0'];
  }

  lemma FractionValue(frac: string)
    requires frac == "50"
    ensures AllDigits(frac) && DigitsValue(frac) == 50 && Pow10(|frac|) == 100
  {
    var f1: string := ['5'];
    assert DigitsValue(f1) == 5 by { assert f1[..0] == []; }
    DigitsValueAppend(f1, '0');
    assert frac == f1 + ['0'];
    assert Pow10(2) == 100;
  }

  lemma WholeAndFraction(whole: string, frac: string)
    requires whole == "125000" && frac == "50"
    ensures AllDigits(whole) && AllDigits(frac)
    ensures DigitsValue(whole) as real + DigitsValue(frac) as real / Pow10(|frac|) as real == 125000.5
  {
    WholeValue(whole);
    FractionValue(frac);
  }
}
