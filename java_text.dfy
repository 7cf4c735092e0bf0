/** The few `java.lang.String` and `java.lang.Boolean` operations the connector relies on,
    written out so that their edge cases are explicit. A Dafny string is a sequence of Unicode scalar
    values where a Java string holds UTF-16 code units; every character compared here is in the Basic
    Multilingual Plane, where the two agree. */
module JavaText {

  /** `s.startsWith(prefix)`. */
  predicate StartsWith(s: string, prefix: string) {
    |prefix| <= |s| && s[..|prefix|] == prefix
  }

  /** The characters `String.trim` strips from both ends: everything at or below U+0020. */
  predicate IsTrimmable(c: char) {
    c <= ' '
  }

  /** The number of trimmable characters at the front of `s`. */
  function LeadingTrimmable(s: string): (k: nat)
    ensures k <= |s|
    ensures forall i :: 0 <= i < k ==> IsTrimmable(s[i])
    ensures k < |s| ==> !IsTrimmable(s[k])
  {
    if |s| > 0 && IsTrimmable(s[0]) then 1 + LeadingTrimmable(s[1..]) else 0
  }

  /** The number of trimmable characters at the back of `s`. */
  function TrailingTrimmable(s: string): (k: nat)
    ensures k <= |s|
    ensures forall i :: |s| - k <= i < |s| ==> IsTrimmable(s[i])
    ensures k < |s| ==> !IsTrimmable(s[|s| - 1 - k])
  {
    if |s| > 0 && IsTrimmable(s[|s| - 1]) then 1 + TrailingTrimmable(s[..|s| - 1]) else 0
  }

  /** `s.trim()`: the longest infix of `s` that neither starts nor ends with a trimmable character. */
  function Trim(s: string): (r: string)
    ensures |r| <= |s|
    ensures r == [] || (!IsTrimmable(r[0]) && !IsTrimmable(r[|r| - 1]))
    ensures (forall i :: 0 <= i < |s| ==> !IsTrimmable(s[i])) ==> r == s
    ensures exists i, j :: 0 <= i <= j <= |s| && r == s[i..j]
                           && (forall k :: 0 <= k < i ==> IsTrimmable(s[k]))
                           && (forall k :: j <= k < |s| ==> IsTrimmable(s[k]))
  {
    var i := LeadingTrimmable(s);
    var t := s[i..];
    var j := i + |t| - TrailingTrimmable(t);
    TrimmedInfix(s, i, j);
    s[i..j]
  }

  /** The characters trailing `s[i..]`'s trimmable suffix are the trimmable suffix of `s`. */
  lemma TrimmedInfix(s: string, i: nat, j: nat)
    requires i <= |s| && j == i + |s[i..]| - TrailingTrimmable(s[i..])
    ensures i <= j <= |s| && s[i..][..|s[i..]| - TrailingTrimmable(s[i..])] == s[i..j]
    ensures forall k :: j <= k < |s| ==> IsTrimmable(s[k])
  {
    var t := s[i..];
    assert forall k :: j <= k < |s| ==> s[k] == t[k - i];
  }

  /** Trimming one leading space off text that has nothing else to trim. */
  lemma TrimLeadingSpace(t: string)
    requires forall i :: 0 <= i < |t| ==> !IsTrimmable(t[i])
    ensures Trim(" " + t) == t
  {
    var s := " " + t;
    assert s[1..] == t;
    assert LeadingTrimmable(t) == 0;
    assert LeadingTrimmable(s) == 1;
    assert TrailingTrimmable(t) == 0;
  }

  /** `Character.isWhitespace` on a character: the Unicode space, line and paragraph
      separators except the no-break spaces, plus the ASCII controls TAB..CR and FS..US. */
  predicate IsWhitespace(c: char) {
    || ('\t' <= c <= '\r')
    || ('\U{1C}' <= c <= '\U{1F}')
    || c == ' '
    || c == '\U{1680}'
    || ('\U{2000}' <= c <= '\U{2006}')
    || ('\U{2008}' <= c <= '\U{200A}')
    || c == '\U{2028}' || c == '\U{2029}'
    || c == '\U{205F}' || c == '\U{3000}'
  }

  /** `s.isBlank()`: empty, or whitespace only. */
  predicate IsBlank(s: string) {
    forall i :: 0 <= i < |s| ==> IsWhitespace(s[i])
  }

  /** `Character.toLowerCase` restricted to ASCII letters; every other character is kept. */
  function AsciiLower(c: char): char {
    if 'A' <= c <= 'Z' then (c as int + 32) as char else c
  }

  /** `a.equalsIgnoreCase(b)` for the ASCII targets the connector compares against. */
  predicate EqualsIgnoreCase(a: string, b: string) {
    |a| == |b| && forall i :: 0 <= i < |a| ==> AsciiLower(a[i]) == AsciiLower(b[i])
  }

  /** `Boolean.parseBoolean(s)` of a non-null string: true exactly for "true" in any letter case. */
  function ParseBoolean(s: string): (b: bool)
    ensures b <==> EqualsIgnoreCase(s, "true")
    ensures s == "true" ==> b
    ensures |s| != 4 ==> !b
  {
    |s| == 4 && AsciiLower(s[0]) == 't' && AsciiLower(s[1]) == 'r'
    && AsciiLower(s[2]) == 'u' && AsciiLower(s[3]) == 'e'
  }

  /** The decimal digit for `d`. */
  function DigitChar(d: nat): char
    requires d < 10
  {
    ('0' as int + d) as char
  }

  /** `String.valueOf(n)` for a non-negative int: decimal digits, no leading zero. */
  function NatToString(n: nat): (s: string)
    ensures |s| > 0
    ensures forall i :: 0 <= i < |s| ==> '0' <= s[i] <= '9'
    ensures |s| > 1 ==> s[0] != '0'
  {
    if n < 10 then [DigitChar(n)] else NatToString(n / 10) + [DigitChar(n % 10)]
  }

  /** `String.valueOf(i)` for any int. */
  function IntToString(i: int): string {
    if i < 0 then "-" + NatToString(-i) else NatToString(i)
  }

  /** The value a sequence of decimal digits denotes (most significant first). */
  function DigitsValue(s: string): nat
    requires forall i :: 0 <= i < |s| ==> '0' <= s[i] <= '9'
  {
    if s == [] then 0 else 10 * DigitsValue(s[..|s| - 1]) + (s[|s| - 1] as int - '0' as int)
  }

  /** Reading the decimal text of `n` back gives `n`: distinct status codes get distinct code strings. */
  lemma {:induction false} NatToStringRoundTrip(n: nat)
    ensures DigitsValue(NatToString(n)) == n
  {
    if n >= 10 {
      var s := NatToString(n);
      assert s[..|s| - 1] == NatToString(n / 10);
      NatToStringRoundTrip(n / 10);
    }
  }
}
