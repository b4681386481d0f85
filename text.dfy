/**
 * The .NET string primitives the type creator relies on: the
 * string.IsNullOrWhiteSpace guard and the decimal rendering of an int
 * that string.Format produces for a compiler error's line number.
 */
module Text {
  import opened Wrappers

  /** char.IsWhiteSpace as of Unicode 6.3: the space, line and paragraph
      separators plus the control characters U+0009..U+000D and U+0085. */
  predicate IsWhiteSpace(c: char) {
    ('\t' <= c <= '\r') || c == ' ' || c == '\U{85}' || c == '\U{A0}' || c == '\U{1680}'
    || ('\U{2000}' <= c <= '\U{200A}') || c == '\U{2028}' || c == '\U{2029}'
    || c == '\U{202F}' || c == '\U{205F}' || c == '\U{3000}'
  }

  /** Every character of s is white space, scanned from the front. */
  function AllWhiteSpace(s: string): (r: bool)
    ensures r <==> forall i :: 0 <= i < |s| ==> IsWhiteSpace(s[i])
  {
    s == [] || (IsWhiteSpace(s[0]) && AllWhiteSpace(s[1..]))
  }

  /** string.IsNullOrWhiteSpace; a null string is None. Blank means null,
      empty, or made of white space only. */
  function IsNullOrWhiteSpace(s: Option<string>): (blank: bool)
    ensures blank <==> s.None? || forall i :: 0 <= i < |s.value| ==> IsWhiteSpace(s.value[i])
    ensures s == Some("") ==> blank
  {
    s.None? || AllWhiteSpace(s.value)
  }

  predicate StartsWith(s: string, prefix: string) {
    |prefix| <= |s| && s[..|prefix|] == prefix
  }

  predicate IsDigit(c: char) {
    '0' <= c <= '9'
  }

  predicate AllDigits(s: string) {
    forall i :: 0 <= i < |s| ==> IsDigit(s[i])
  }

  function DigitValue(c: char): (d: nat)
    requires IsDigit(c)
    ensures d < 10
  {
    c as int - '0' as int
  }

  function DigitChar(d: nat): (c: char)
    requires d < 10
    ensures IsDigit(c) && DigitValue(c) == d
  {
    ('0' as int + d) as char
  }

  /** Decimal digits of n, most significant first, without leading zeros. */
  function NatToString(n: nat): (s: string)
    ensures |s| > 0 && AllDigits(s)
    ensures s[0] == '0' ==> n == 0
    ensures n == 0 ==> s == "0"
  {
    if n < 10 then [DigitChar(n)] else NatToString(n / 10) + [DigitChar(n % 10)]
  }

  /** Int32.ToString() under the invariant culture: a '-' sign, then the digits. */
  function IntToString(i: int): (s: string)
    ensures |s| > 0
    ensures s[0] == '-' <==> i < 0
    ensures i == 0 ==> s == "0"
    ensures AllDigits(if i < 0 then s[1..] else s)
    ensures |s| > (if i < 0 then 1 else 0) && (s[if i < 0 then 1 else 0] == '0' ==> i == 0)
    ensures forall k :: 0 <= k < |s| ==> s[k] != ','
  {
    if i < 0 then "-" + NatToString(-i) else NatToString(i)
  }

  /** The value of a string of decimal digits. */
  function DigitsValue(s: string): nat
    requires AllDigits(s)
  {
    if s == [] then 0 else DigitsValue(s[..|s| - 1]) * 10 + DigitValue(s[|s| - 1])
  }

  /** Reads back what IntToString writes; None for anything else. */
  function ParseInt(s: string): Option<int> {
    if |s| > 1 && s[0] == '-' && AllDigits(s[1..]) then Some(-(DigitsValue(s[1..]) as int))
    else if |s| > 0 && AllDigits(s) then Some(DigitsValue(s))
    else None
  }

  lemma {:induction false} NatToStringRoundTrip(n: nat)
    ensures DigitsValue(NatToString(n)) == n
  {
    if n >= 10 {
      NatToStringRoundTrip(n / 10);
      var s := NatToString(n);
      assert s[..|s| - 1] == NatToString(n / 10);
    }
  }

  /** The line number printed into a diagnostic can be read back exactly. */
  lemma IntToStringRoundTrip(i: int)
    ensures ParseInt(IntToString(i)) == Some(i)
  {
    var s := IntToString(i);
    if i < 0 {
      assert s[1..] == NatToString(-i);
      NatToStringRoundTrip(-i);
    } else {
      NatToStringRoundTrip(i);
    }
  }

  /** The characters of s before the first occurrence of stop (all of s if none). */
  function TakeUntil(s: string, stop: char): (r: string)
    ensures |r| <= |s|
  {
    if s == [] || s[0] == stop then [] else [s[0]] + TakeUntil(s[1..], stop)
  }

  lemma {:induction false} TakeUntilStop(a: string, stop: char, b: string)
    requires forall k :: 0 <= k < |a| ==> a[k] != stop
    ensures TakeUntil(a + [stop] + b, stop) == a
  {
    if a != [] {
      assert (a + [stop] + b)[1..] == a[1..] + [stop] + b;
      TakeUntilStop(a[1..], stop, b);
    }
  }
}
