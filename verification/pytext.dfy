/**
 * The slice of Python's text semantics the pipeline relies on: the values a
 * decoded record can hold, how an f-string renders them (`str(v)`), their
 * truthiness, and `str.strip()` with no arguments.
 */
module PyText {

  /**
   * A field value of a decoded record: JSON `null` (Python `None`), a string
   * or an integer. A key missing from the record also reads as `Null`,
   * because `dict.get` returns `None` for it.
   */
  datatype Value = Null | Text(s: string) | Integer(n: int)

  /** Python's `bool(v)`: `None`, `""` and `0` are false. */
  predicate Truthy(v: Value)
  {
    match v
    case Null => false
    case Text(s) => s != ""
    case Integer(n) => n != 0
  }

  /** The characters for which Python's `str.isspace()` holds. */
  predicate IsWhitespace(c: char)
  {
    c == ' ' || ('\t' <= c <= '\r') || ('\U{1c}' <= c <= '\U{1f}') ||
    c == '\U{85}' || c == '\U{a0}' || c == '\U{1680}' ||
    ('\U{2000}' <= c <= '\U{200a}') || c == '\U{2028}' || c == '\U{2029}' ||
    c == '\U{202f}' || c == '\U{205f}' || c == '\U{3000}'
  }

  /** `s` with its leading whitespace removed. */
  function StripLeft(s: string): (r: string)
    ensures |r| <= |s|
  {
    if s != [] && IsWhitespace(s[0]) then StripLeft(s[1..]) else s
  }

  /** `s` with its trailing whitespace removed. */
  function StripRight(s: string): (r: string)
    ensures |r| <= |s|
  {
    if s != [] && IsWhitespace(s[|s| - 1]) then StripRight(s[..|s| - 1]) else s
  }

  /** Python's `s.strip()`: the slice between the outer runs of whitespace. */
  function Strip(s: string): string
  {
    StripRight(StripLeft(s))
  }

  /** `StripLeft` removes exactly the leading run of whitespace. */
  lemma {:induction false} StripLeftRemovesLeading(s: string)
    ensures var r := StripLeft(s);
      && |r| <= |s| && r == s[|s| - |r|..]
      && (forall j :: 0 <= j < |s| - |r| ==> IsWhitespace(s[j]))
      && (r != [] ==> !IsWhitespace(r[0]))
    decreases |s|
  {
    if s != [] && IsWhitespace(s[0]) {
      StripLeftRemovesLeading(s[1..]);
    }
  }

  /** `StripRight` removes exactly the trailing run of whitespace. */
  lemma {:induction false} StripRightRemovesTrailing(s: string)
    ensures var r := StripRight(s);
      && |r| <= |s| && r == s[..|r|]
      && (forall j :: |r| <= j < |s| ==> IsWhitespace(s[j]))
      && (r != [] ==> !IsWhitespace(r[|r| - 1]))
    decreases |s|
  {
    if s != [] && IsWhitespace(s[|s| - 1]) {
      StripRightRemovesTrailing(s[..|s| - 1]);
    }
  }

  /**
   * `r` is `s` cut at offset `a`: a contiguous slice of `s` with only
   * whitespace outside it, and no whitespace at either of its ends.
   */
  predicate TrimmedAt(s: string, r: string, a: nat)
  {
    a + |r| <= |s| && r == s[a..a + |r|] &&
    (forall j :: 0 <= j < a ==> IsWhitespace(s[j])) &&
    (forall j :: a + |r| <= j < |s| ==> IsWhitespace(s[j])) &&
    (r != [] ==> !IsWhitespace(r[0]) && !IsWhitespace(r[|r| - 1]))
  }

  /**
   * `Strip(s)` is `s` cut after its leading whitespace: inner whitespace is
   * kept, only the outer runs go.
   */
  lemma StripTrims(s: string)
    ensures TrimmedAt(s, Strip(s), |s| - |StripLeft(s)|)
  {
    var l := StripLeft(s);
    StripLeftRemovesLeading(s);
    StripRightRemovesTrailing(l);
    var r := StripRight(l);
    var a := |s| - |l|;
    assert r == s[a..a + |r|];
    forall j | a + |r| <= j < |s| ensures IsWhitespace(s[j]) {
      assert s[j] == l[j - a];
    }
    if r != [] {
      assert r[0] == l[0] by {
        if !IsWhitespace(l[0]) { } else { assert false; }
      }
    }
  }

  /** Any trimmed slice of `s` is `Strip(s)`: strip is determined by the whitespace predicate alone. */
  lemma StripUnique(s: string, r: string, a: nat)
    requires TrimmedAt(s, r, a)
    ensures r == Strip(s)
  {
    var t := Strip(s);
    var b := |s| - |StripLeft(s)|;
    StripTrims(s);
    if r == [] {
      if t != [] {
        if b < a { assert false; }
        if a <= b { assert false; }
      }
    } else {
      assert !IsWhitespace(s[a]) && !IsWhitespace(s[a + |r| - 1]);
      if t == [] {
        if a < b { assert false; }
        if b <= a { assert false; }
      }
      assert !IsWhitespace(s[b]) && !IsWhitespace(s[b + |t| - 1]);
      if a < b { assert false; }
      if b < a { assert false; }
      if a + |r| < b + |t| { assert false; }
      if b + |t| < a + |r| { assert false; }
    }
  }

  /** Stripping twice is stripping once. */
  lemma StripIdempotent(s: string)
    ensures Strip(Strip(s)) == Strip(s)
  {
    var r := Strip(s);
    StripTrims(s);
    assert TrimmedAt(r, r, 0);
    StripUnique(r, r, 0);
  }

  /** A string that is whitespace throughout strips to the empty string. */
  lemma StripAllWhitespace(s: string)
    requires forall j :: 0 <= j < |s| ==> IsWhitespace(s[j])
    ensures Strip(s) == ""
  {
    assert TrimmedAt(s, "", 0);
    StripUnique(s, "", 0);
  }

  /** The decimal digit `d`. */
  function DigitChar(d: nat): (c: char)
    requires d < 10
    ensures '0' <= c <= '9' && c as int - '0' as int == d
  {
    "0123456789"[d]
  }

  predicate IsDigits(s: string)
  {
    forall j :: 0 <= j < |s| ==> '0' <= s[j] <= '9'
  }

  /** `str(n)` for a non-negative integer: canonical decimal, no leading zeros. */
  function NatText(n: nat): (r: string)
    ensures r != "" && IsDigits(r)
    ensures |r| > 1 ==> r[0] != '0'
    decreases n
  {
    if n < 10 then [DigitChar(n)] else NatText(n / 10) + [DigitChar(n % 10)]
  }

  /** The number a string of decimal digits denotes. */
  function ParseNat(s: string): nat
    requires IsDigits(s)
  {
    if s == [] then 0 else 10 * ParseNat(s[..|s| - 1]) + (s[|s| - 1] as int - '0' as int)
  }

  /** Reading back the decimal text of `n` gives `n`. */
  lemma {:induction false} NatTextRoundTrip(n: nat)
    ensures ParseNat(NatText(n)) == n
    decreases n
  {
    if n >= 10 {
      var t := NatText(n);
      assert t[..|t| - 1] == NatText(n / 10);
      NatTextRoundTrip(n / 10);
    }
  }

  /**
   * `str(n)` for any integer: canonical decimal, a minus sign before the
   * digits of a negative number and no leading zero.
   */
  function IntText(n: int): (r: string)
    ensures r != ""
    ensures n < 0 <==> r[0] == '-'
    ensures var digits := if n < 0 then r[1..] else r;
      digits != "" && (|digits| > 1 ==> digits[0] != '0')
    ensures n < 0 ==> IsDigits(r[1..]) && ParseNat(r[1..]) == -n
    ensures n >= 0 ==> IsDigits(r) && ParseNat(r) == n
  {
    NatTextRoundTrip(if n < 0 then -n else n);
    if n < 0 then "-" + NatText(-n) else NatText(n)
  }

  /** The text an f-string substitutes for a value: Python's `str(v)`. */
  function Render(v: Value): string
  {
    match v
    case Null => "None"
    case Text(s) => s
    case Integer(n) => IntText(n)
  }
}
