/** Text helpers that the Python runtime supplies to the crawler and the
    subscribers: `str(int)`, `str.strip()` and the POSIX `os.path.basename`. */
module Text {

  datatype Option<T> = None | Some(value: T)

  // ---------------------------------------------------------------------------
  // str(n) for a Python int, and its inverse

  function DigitChar(d: nat): (c: char)
    requires d < 10
    ensures '0' <= c <= '9' && c as int - '0' as int == d
  {
    "0123456789"[d]
  }

  predicate IsDigit(c: char) {
    '0' <= c <= '9'
  }

  predicate AllDigits(s: string) {
    forall i :: 0 <= i < |s| ==> IsDigit(s[i])
  }

  /** Decimal text of a natural number, most significant digit first, without
      leading zeros. */
  function NatText(n: nat): (s: string)
    ensures 1 <= |s| && AllDigits(s)
    ensures |s| > 1 ==> s[0] != '0'
    decreases n
  {
    if n < 10 then [DigitChar(n)] else NatText(n / 10) + [DigitChar(n % 10)]
  }

  /** `str(n)` for an int: a minus sign before the digits of a negative number. */
  function IntText(n: int): (s: string)
    ensures 1 <= |s|
    ensures n < 0 <==> s[0] == '-'
    ensures n >= 0 ==> IsDigit(s[0])
    ensures forall i :: 0 < i < |s| ==> IsDigit(s[i])
  {
    if n < 0 then "-" + NatText(-n) else NatText(n)
  }

  /** The value of a string of decimal digits. */
  function DigitsValue(s: string): nat
    requires AllDigits(s)
  {
    if s == [] then 0 else DigitsValue(s[..|s| - 1]) * 10 + (s[|s| - 1] as int - '0' as int)
  }

  /** Reads back an optional minus sign followed by at least one digit. */
  function ParseInt(s: string): (r: Option<int>)
    ensures r.Some? ==> 1 <= |s|
  {
    if |s| >= 2 && s[0] == '-' && AllDigits(s[1..]) then Some(-(DigitsValue(s[1..]) as int))
    else if |s| >= 1 && AllDigits(s) then Some(DigitsValue(s))
    else None
  }

  lemma {:induction false} NatTextValue(n: nat)
    ensures DigitsValue(NatText(n)) == n
    decreases n
  {
    if n >= 10 {
      var s := NatText(n);
      assert s[..|s| - 1] == NatText(n / 10);
      NatTextValue(n / 10);
    }
  }

  lemma ParseNegative(n: int)
    requires n < 0
    ensures ParseInt(IntText(n)) == Some(n)
  {
    var d := NatText(-n);
    var s := IntText(n);
    assert s == "-" + d;
    assert s[1..] == d;
    assert |s| >= 2 && s[0] == '-' && AllDigits(s[1..]);
    NatTextValue(-n);
  }

  lemma ParseNonNegative(n: int)
    requires n >= 0
    ensures ParseInt(IntText(n)) == Some(n)
  {
    var s := IntText(n);
    assert s == NatText(n);
    assert IsDigit(s[0]);
    NatTextValue(n);
  }

  /** Reading back the text of any int gives that int. */
  lemma IntTextRoundTrip(n: int)
    ensures ParseInt(IntText(n)) == Some(n)
  {
    if n < 0 {
      ParseNegative(n);
    } else {
      ParseNonNegative(n);
    }
  }

  // ---------------------------------------------------------------------------
  // str.strip() with no argument

  /** Python's `str.isspace` characters (the Unicode whitespace of `str.split`). */
  predicate IsSpace(c: char) {
    || c == ' ' || ('\t' <= c <= '\r') || ('\U{001C}' <= c <= '\U{001F}')
    || c == '\U{0085}' || c == '\U{00A0}' || c == '\U{1680}'
    || ('\U{2000}' <= c <= '\U{200A}') || c == '\U{2028}' || c == '\U{2029}'
    || c == '\U{202F}' || c == '\U{205F}' || c == '\U{3000}'
  }

  predicate AllSpace(s: string) {
    forall i :: 0 <= i < |s| ==> IsSpace(s[i])
  }

  /** Number of whitespace characters at the start of `s`. */
  function LeadingSpace(s: string): (n: nat)
    ensures n <= |s| && AllSpace(s[..n])
    ensures n < |s| ==> !IsSpace(s[n])
  {
    if s == [] || !IsSpace(s[0]) then 0
    else
      var k := LeadingSpace(s[1..]);
      assert s[..k + 1] == [s[0]] + s[1..][..k];
      k + 1
  }

  /** Number of whitespace characters at the end of `s`. */
  function TrailingSpace(s: string): (n: nat)
    ensures n <= |s| && AllSpace(s[|s| - n..])
    ensures n < |s| ==> !IsSpace(s[|s| - 1 - n])
  {
    if s == [] || !IsSpace(s[|s| - 1]) then 0
    else
      var k := TrailingSpace(s[..|s| - 1]);
      assert s[|s| - (k + 1)..] == s[..|s| - 1][|s| - 1 - k..] + [s[|s| - 1]];
      k + 1
  }

  /** `s.strip()`: `s` without its leading and trailing whitespace. */
  function Strip(s: string): (r: string)
    ensures r == [] || (!IsSpace(r[0]) && !IsSpace(r[|r| - 1]))
  {
    var t := s[LeadingSpace(s)..];
    t[..|t| - TrailingSpace(t)]
  }

  lemma SplitThree(s: string, i: nat, k: nat)
    requires i <= |s| && k <= |s| - i
    ensures s == s[..i] + s[i..][..k] + s[i..][k..]
  {
    assert s == s[..i] + s[i..];
    assert s[i..] == s[i..][..k] + s[i..][k..];
  }

  /** Only whitespace is removed, and only at the two ends. */
  lemma StripDecompose(s: string) returns (front: string, back: string)
    ensures s == front + Strip(s) + back
    ensures AllSpace(front) && AllSpace(back)
  {
    var i := LeadingSpace(s);
    var t := s[i..];
    var k := |t| - TrailingSpace(t);
    front, back := s[..i], t[k..];
    SplitThree(s, i, k);
  }

  /** A string is blank for `url.strip() != ""` exactly when it is all whitespace. */
  lemma StripEmptyIff(s: string)
    ensures Strip(s) == [] <==> AllSpace(s)
  {
    var front, back := StripDecompose(s);
  }

  /** Stripping twice is stripping once. */
  lemma StripIdempotent(s: string)
    ensures Strip(Strip(s)) == Strip(s)
  {
    var r := Strip(s);
    assert LeadingSpace(r) == 0;
    assert r[0..] == r;
    assert TrailingSpace(r) == 0;
  }

  // ---------------------------------------------------------------------------
  // os.path.basename on POSIX paths

  /** The text after the last '/', or all of `p` when it has none. */
  function Basename(p: string): string {
    if p == [] || p[|p| - 1] == '/' then [] else Basename(p[..|p| - 1]) + [p[|p| - 1]]
  }

  /** The basename holds no '/', ends `p`, and is preceded in `p` by a '/'
      unless it is all of `p`. */
  lemma {:induction false} BasenameSuffix(p: string)
    ensures '/' !in Basename(p)
    ensures |Basename(p)| <= |p| && Basename(p) == p[|p| - |Basename(p)|..]
    ensures |Basename(p)| < |p| ==> p[|p| - |Basename(p)| - 1] == '/'
    decreases |p|
  {
    if p != [] && p[|p| - 1] != '/' {
      var q := p[..|p| - 1];
      BasenameSuffix(q);
      assert p == q + [p[|p| - 1]];
      assert Basename(p) == Basename(q) + [p[|p| - 1]];
      assert p[|p| - |Basename(p)|..] == q[|q| - |Basename(q)|..] + [p[|p| - 1]];
    }
  }
}
