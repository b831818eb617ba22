/** String helpers the pages rely on implicitly: rendering an integer in a template
    literal, and `String.prototype.trim`. */
module Text {

  /** The decimal digit character for `d`. */
  function DigitChar(d: nat): (c: char)
    requires d < 10
    ensures '0' <= c <= '9'
  {
    ('0' as int + d) as char
  }

  predicate IsDigit(c: char)
  {
    '0' <= c <= '9'
  }

  function DigitValue(c: char): (d: nat)
    requires IsDigit(c)
    ensures d < 10 && DigitChar(d) == c
  {
    (c as int - '0' as int) as nat
  }

  predicate AllDigits(s: string)
  {
    forall i :: 0 <= i < |s| ==> IsDigit(s[i])
  }

  /** How `${n}` renders a non-negative integer (such as `Date.now()`): plain decimal,
      most significant digit first, no leading zeros. */
  function NatToString(n: nat): (s: string)
    ensures s != [] && AllDigits(s)
    ensures |s| > 1 ==> s[0] != '0'
    decreases n
  {
    if n < 10 then [DigitChar(n)] else NatToString(n / 10) + [DigitChar(n % 10)]
  }

  /** Reads a string of decimal digits back as a number (most significant digit first). */
  function ParseDecimal(s: string): nat
    requires AllDigits(s)
  {
    if s == [] then 0 else 10 * ParseDecimal(s[..|s| - 1]) + DigitValue(s[|s| - 1])
  }

  /** Rendering a number in decimal loses nothing: parsing gives the number back. */
  lemma {:induction false} ParseNatToString(n: nat)
    ensures ParseDecimal(NatToString(n)) == n
    decreases n
  {
    var s := NatToString(n);
    if n >= 10 {
      ParseNatToString(n / 10);
      assert s[..|s| - 1] == NatToString(n / 10);
    }
  }

  /** Consequently different numbers render as different strings. */
  lemma NatToStringInjective(m: nat, n: nat)
    requires m != n
    ensures NatToString(m) != NatToString(n)
  {
    ParseNatToString(m);
    ParseNatToString(n);
  }

  /** The characters `String.prototype.trim` strips: the ECMAScript WhiteSpace
      (tab, vertical tab, form feed, space, no-break space, byte-order mark and the
      Space_Separator category) and LineTerminator (line feed, carriage return,
      line and paragraph separators) code points. */
  predicate IsJsWhitespace(c: char)
  {
    c == '\t' || c == '\n' || c == '\U{B}' || c == '\U{C}' || c == '\r' || c == ' '
    || c == '\U{A0}' || c == '\U{1680}' || ('\U{2000}' <= c <= '\U{200A}')
    || c == '\U{2028}' || c == '\U{2029}' || c == '\U{202F}' || c == '\U{205F}'
    || c == '\U{3000}' || c == '\U{FEFF}'
  }

  /** The first index at or after `i` that does not hold whitespace (or `|s|`). */
  function TrimStartIndex(s: string, i: nat): (j: nat)
    requires i <= |s|
    ensures i <= j <= |s|
    ensures forall k :: i <= k < j ==> IsJsWhitespace(s[k])
    ensures j == |s| || !IsJsWhitespace(s[j])
    decreases |s| - i
  {
    if i < |s| && IsJsWhitespace(s[i]) then TrimStartIndex(s, i + 1) else i
  }

  /** The end of the slice `s[lo..hi]` once its trailing whitespace is dropped. */
  function TrimEndIndex(s: string, lo: nat, hi: nat): (j: nat)
    requires lo <= hi <= |s|
    ensures lo <= j <= hi
    ensures forall k :: j <= k < hi ==> IsJsWhitespace(s[k])
    ensures j == lo || !IsJsWhitespace(s[j - 1])
  {
    if lo < hi && IsJsWhitespace(s[hi - 1]) then TrimEndIndex(s, lo, hi - 1) else hi
  }

  /** Where the trimmed slice starts and ends. */
  function TrimmedFrom(s: string): nat
  {
    TrimStartIndex(s, 0)
  }

  function TrimmedTo(s: string): nat
  {
    TrimEndIndex(s, TrimmedFrom(s), |s|)
  }

  /** `s.trim()`: the slice `s[TrimmedFrom(s)..TrimmedTo(s)]`, with only whitespace before and after
      it, and no whitespace at either of its ends. */
  function Trim(s: string): (r: string)
    ensures TrimmedFrom(s) <= TrimmedTo(s) <= |s| && r == s[TrimmedFrom(s)..TrimmedTo(s)]
    ensures forall k :: 0 <= k < TrimmedFrom(s) ==> IsJsWhitespace(s[k])
    ensures forall k :: TrimmedTo(s) <= k < |s| ==> IsJsWhitespace(s[k])
    ensures r != [] ==> !IsJsWhitespace(r[0]) && !IsJsWhitespace(r[|r| - 1])
  {
    s[TrimmedFrom(s)..TrimmedTo(s)]
  }

  /** A string made of whitespace only trims to the empty string, and only such a string does. */
  lemma TrimEmptyIff(s: string)
    ensures Trim(s) == [] <==> forall k :: 0 <= k < |s| ==> IsJsWhitespace(s[k])
  {
  }
}
