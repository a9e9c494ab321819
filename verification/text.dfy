/** Character and string helpers shared by the decoder, the dashboard and the sensor form:
    ASCII decimal digits, Python's `int(...)` on digit strings and `str(n)`, prefix and
    substring tests. */
module Text {

  predicate IsDigit(c: char) {
    '0' <= c <= '9'
  }

  predicate AllDigits(s: string) {
    forall i :: 0 <= i < |s| ==> IsDigit(s[i])
  }

  function DigitValue(c: char): (d: nat)
    requires IsDigit(c)
    ensures d < 10
  {
    c as int - '0' as int
  }

  function DigitChar(d: nat): (c: char)
    requires d < 10
    ensures IsDigit(c) && DigitValue(c) == d
  {
    ('0' as int + d) as char
  }

  /** The number a string of decimal digits denotes (Python's `int(s)` on such a string;
      leading zeros are allowed, so "01" denotes 1). */
  function DigitsValue(s: string): nat
    requires AllDigits(s)
    decreases |s|
  {
    if s == [] then 0 else DigitsValue(s[..|s| - 1]) * 10 + DigitValue(s[|s| - 1])
  }

  /** Python's `str(n)` for a non-negative integer: canonical decimal, no leading zero. */
  function NatToString(n: nat): (s: string)
    ensures |s| > 0 && AllDigits(s)
    ensures DigitsValue(s) == n
    ensures s[0] == '0' ==> s == "0"
    decreases n
  {
    if n < 10 then [DigitChar(n)]
    else
      var prefix := NatToString(n / 10);
      var s := prefix + [DigitChar(n % 10)];
      assert s[..|s| - 1] == prefix;
      s
  }

  /** `str.startswith`. */
  predicate StartsWith(s: string, prefix: string) {
    |prefix| <= |s| && s[..|prefix|] == prefix
  }

  /** Python's `sub in s` for strings: `sub` occurs at some offset at or after `from`. */
  predicate ContainsFrom(s: string, sub: string, from: nat)
    decreases |s| - from
  {
    from + |sub| <= |s| && (s[from..from + |sub|] == sub || ContainsFrom(s, sub, from + 1))
  }

  predicate Contains(s: string, sub: string) {
    ContainsFrom(s, sub, 0)
  }

  /** Python's `s[:n]`. */
  function Prefix(s: string, n: nat): (p: string)
    ensures |p| == if |s| <= n then |s| else n
    ensures StartsWith(s, p)
  {
    if |s| <= n then s else s[..n]
  }
}
