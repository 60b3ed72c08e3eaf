/**
  The JavaScript string operations the script relies on: `trim` (to detect blank
  input), `toLowerCase`/`toUpperCase` (restricted to ASCII letters), `replace`
  with a one-character string pattern (first occurrence only) and with a global
  regular expression (every occurrence), and `Number.prototype.toString` for the
  non-negative integers used as Pokemon IDs.
*/
module JsText {

  /** The characters ECMAScript's `String.prototype.trim` strips: WhiteSpace
      (TAB, VT, FF, SP, NBSP, ZWNBSP and the Unicode Zs category) and
      LineTerminator (LF, CR, LS, PS). */
  predicate IsWhitespace(c: char) {
    c == '\t' || c == '\n' || c == '\U{000B}' || c == '\U{000C}' || c == '\r' ||
    c == ' ' || c == '\U{00A0}' || c == '\U{1680}' ||
    ('\U{2000}' <= c <= '\U{200A}') ||
    c == '\U{2028}' || c == '\U{2029}' || c == '\U{202F}' || c == '\U{205F}' ||
    c == '\U{3000}' || c == '\U{FEFF}'
  }

  /** Every character of `s` is whitespace (the empty string included). */
  predicate IsBlank(s: string) {
    forall i :: 0 <= i < |s| ==> IsWhitespace(s[i])
  }

  /** Leading whitespace removed: a suffix of `s` that starts with a
      non-whitespace character, or is empty, and what was cut off is blank. */
  function TrimStart(s: string): (r: string)
    ensures |r| <= |s| && r == s[|s| - |r|..]
    ensures IsBlank(s[..|s| - |r|])
    ensures r != [] ==> !IsWhitespace(r[0])
  {
    if s != [] && IsWhitespace(s[0]) then
      var r := TrimStart(s[1..]);
      assert s[1..][|s| - 1 - |r|..] == s[|s| - |r|..];
      assert forall i :: 1 <= i < |s| - |r| ==> s[i] == s[1..][..|s| - 1 - |r|][i - 1];
      r
    else s
  }

  /** Trailing whitespace removed: a prefix of `s` that ends with a
      non-whitespace character, or is empty, and what was cut off is blank. */
  function TrimEnd(s: string): (r: string)
    ensures |r| <= |s| && r == s[..|r|]
    ensures IsBlank(s[|r|..])
    ensures r != [] ==> !IsWhitespace(r[|r| - 1])
  {
    if s != [] && IsWhitespace(s[|s| - 1]) then TrimEnd(s[..|s| - 1]) else s
  }

  /** `String.prototype.trim`: the input with a blank prefix and a blank
      suffix cut off, starting and ending with a non-whitespace character,
      and empty exactly for blank input. */
  function Trim(s: string): (r: string)
    ensures CutsBlankEnds(s, |s| - |TrimStart(s)|, r)
    ensures r != [] ==> !IsWhitespace(r[0]) && !IsWhitespace(r[|r| - 1])
    ensures r == [] <==> IsBlank(s)
  {
    TrimEmptyIffBlank(s);
    TrimCutsBlankEnds(s);
    TrimEnd(TrimStart(s))
  }

  /** The blank prefix and blank suffix `trim` cuts off, and the middle it
      keeps, as positions in `s`. */
  predicate CutsBlankEnds(s: string, k: int, r: string) {
    0 <= k && k + |r| <= |s| && IsBlank(s[..k]) && r == s[k..k + |r|] && IsBlank(s[k + |r|..])
  }

  /** Trimming both ends cuts a blank prefix and a blank suffix off `s` and
      keeps the middle as it is. */
  lemma TrimCutsBlankEnds(s: string)
    ensures CutsBlankEnds(s, |s| - |TrimStart(s)|, TrimEnd(TrimStart(s)))
  {
    var t := TrimStart(s);
    CutsFromParts(s, |s| - |t|, t, TrimEnd(t));
  }

  /** A blank prefix cut off first and a blank suffix cut off the rest are
      a blank prefix and a blank suffix of `s`. */
  lemma CutsFromParts(s: string, k: nat, t: string, r: string)
    requires k <= |s| && t == s[k..] && IsBlank(s[..k])
    requires |r| <= |t| && r == t[..|r|] && IsBlank(t[|r|..])
    ensures CutsBlankEnds(s, k, r)
  {
    assert t[..|r|] == s[k..k + |r|];
    assert t[|r|..] == s[k + |r|..];
  }

  /** Trimming both ends yields the empty string exactly for blank strings:
      the test the search box applies before any request is made. */
  lemma TrimEmptyIffBlank(s: string)
    ensures TrimEnd(TrimStart(s)) == [] <==> IsBlank(s)
  {
    TrimStartEmptyIffBlank(s);
    var t := TrimStart(s);
    if t != [] {
      TrimEndKeepsLeadingText(t);
    }
  }

  /** Leading whitespace removal empties exactly the blank strings. */
  lemma {:induction false} TrimStartEmptyIffBlank(s: string)
    ensures TrimStart(s) == [] <==> IsBlank(s)
  {
    if s != [] && IsWhitespace(s[0]) {
      TrimStartEmptyIffBlank(s[1..]);
      assert IsBlank(s) <==> IsBlank(s[1..]) by {
        assert forall i :: 1 <= i < |s| ==> s[i] == s[1..][i - 1];
      }
    }
  }

  /** A string starting with a non-whitespace character keeps at least that
      character when trailing whitespace is removed. */
  lemma TrimEndKeepsLeadingText(t: string)
    requires t != [] && !IsWhitespace(t[0])
    ensures TrimEnd(t) != []
  {
  }

  function LowerChar(c: char): (d: char)
    ensures 'A' <= c <= 'Z' ==> 'a' <= d <= 'z' && d as int - c as int == 32
    ensures !('A' <= c <= 'Z') ==> d == c
  {
    if 'A' <= c <= 'Z' then (c as int + 32) as char else c
  }

  function UpperChar(c: char): (d: char)
    ensures 'a' <= c <= 'z' ==> 'A' <= d <= 'Z' && c as int - d as int == 32
    ensures !('a' <= c <= 'z') ==> d == c
  {
    if 'a' <= c <= 'z' then (c as int - 32) as char else c
  }

  /** `String.prototype.toLowerCase`, on ASCII letters: same length, each
      character lowered in place. */
  function Lower(s: string): (r: string)
    ensures |r| == |s|
    ensures forall i :: 0 <= i < |s| ==> r[i] == LowerChar(s[i])
  {
    if s == [] then [] else [LowerChar(s[0])] + Lower(s[1..])
  }

  /** `String.prototype.toUpperCase`, on ASCII letters: same length, each
      character raised in place. */
  function Upper(s: string): (r: string)
    ensures |r| == |s|
    ensures forall i :: 0 <= i < |s| ==> r[i] == UpperChar(s[i])
  {
    if s == [] then [] else [UpperChar(s[0])] + Upper(s[1..])
  }

  /** Lower-casing leaves a blank string as it is. */
  lemma LowerKeepsBlank(s: string)
    requires IsBlank(s)
    ensures Lower(s) == s
  {
    forall i | 0 <= i < |s| ensures Lower(s)[i] == s[i] {
      assert IsWhitespace(s[i]);
    }
  }

  /** An upper-cased string holds no lower-case ASCII letter. */
  lemma UpperHasNoLowerCase(s: string)
    ensures forall i :: 0 <= i < |Upper(s)| ==> !('a' <= Upper(s)[i] <= 'z')
  {
  }

  /** `s.indexOf(c)`: the index of the first `c` in `s`, or -1. */
  function IndexOf(s: string, c: char): (k: int)
    ensures -1 <= k < |s|
    ensures k == -1 <==> c !in s
    ensures 0 <= k ==> s[k] == c && c !in s[..k]
  {
    if s == [] then -1
    else if s[0] == c then 0
    else
      var k := IndexOf(s[1..], c);
      assert s[1..][..if k < 0 then 0 else k] == s[1..1 + if k < 0 then 0 else k];
      if k < 0 then -1 else k + 1
  }

  /** `s.replace(c, d)` with a one-character string pattern: only the first
      occurrence of `c` becomes `d`; every other character, later copies of
      `c` included, stays. */
  function ReplaceFirst(s: string, c: char, d: char): (r: string)
    ensures |r| == |s|
    ensures forall i :: 0 <= i < |s| ==> r[i] == (if i == IndexOf(s, c) then d else s[i])
  {
    if s == [] then []
    else if s[0] == c then [d] + s[1..]
    else [s[0]] + ReplaceFirst(s[1..], c, d)
  }

  /** `s.replace(/c/g, d)`: every occurrence of `c` becomes `d`. */
  function ReplaceAll(s: string, c: char, d: char): (r: string)
    ensures |r| == |s|
    ensures forall i :: 0 <= i < |s| ==> r[i] == (if s[i] == c then d else s[i])
  {
    if s == [] then [] else [if s[0] == c then d else s[0]] + ReplaceAll(s[1..], c, d)
  }

  /** Number of occurrences of `c` in `s`. */
  function Count(s: string, c: char): nat {
    if s == [] then 0 else (if s[0] == c then 1 else 0) + Count(s[1..], c)
  }

  /** The two kinds of `replace` agree on strings with at most one
      occurrence of the pattern, as every stat name of the Pokemon data has. */
  lemma {:induction false} ReplaceFirstIsReplaceAllWhenUnique(s: string, c: char, d: char)
    requires Count(s, c) <= 1
    ensures ReplaceFirst(s, c, d) == ReplaceAll(s, c, d)
  {
    if s != [] {
      if s[0] == c {
        NoneCounted(s[1..], c);
        assert ReplaceAll(s[1..], c, d) == s[1..];
      } else {
        ReplaceFirstIsReplaceAllWhenUnique(s[1..], c, d);
      }
    }
  }

  lemma {:induction false} NoneCounted(s: string, c: char)
    ensures Count(s, c) == 0 <==> c !in s
  {
    if s != [] {
      NoneCounted(s[1..], c);
    }
  }

  /** After a global replacement of `c` by a different character no `c` is
      left; a single replacement removes exactly one occurrence when there is
      one. */
  lemma {:induction false} ReplaceCounts(s: string, c: char, d: char)
    requires c != d
    ensures Count(ReplaceAll(s, c, d), c) == 0
    ensures Count(ReplaceFirst(s, c, d), c) == if c in s then Count(s, c) - 1 else 0
  {
    if s != [] {
      ReplaceCounts(s[1..], c, d);
      assert ReplaceAll(s, c, d)[1..] == ReplaceAll(s[1..], c, d);
      if s[0] == c {
        assert ReplaceFirst(s, c, d)[1..] == s[1..];
      } else {
        assert ReplaceFirst(s, c, d)[1..] == ReplaceFirst(s[1..], c, d);
        if c !in s[1..] {
          NoneCounted(s[1..], c);
        }
      }
    }
  }

  function DigitChar(n: nat): (c: char)
    requires n < 10
    ensures '0' <= c <= '9' && c as int - '0' as int == n
  {
    ('0' as int + n) as char
  }

  /** `n.toString()` for a non-negative integer: its decimal digits, most
      significant first, with no leading zero. */
  function DecimalString(n: nat): (r: string)
    ensures r != [] && IsDigits(r)
    ensures |r| == 1 || r[0] != '0'
    ensures n > 0 ==> r[0] != '0'
  {
    if n < 10 then [DigitChar(n)] else DecimalString(n / 10) + [DigitChar(n % 10)]
  }

  /** Only decimal digits. */
  predicate IsDigits(s: string) {
    forall i :: 0 <= i < |s| ==> '0' <= s[i] <= '9'
  }

  /** The value a string of decimal digits denotes (how the remote service
      reads a numeric path segment). */
  function DecimalValue(s: string): nat
    requires IsDigits(s)
  {
    if s == [] then 0
    else 10 * DecimalValue(s[..|s| - 1]) + (s[|s| - 1] as int - '0' as int)
  }

  /** Reading back the digits `toString` produced gives the number again. */
  lemma {:induction false} DecimalRoundTrip(n: nat)
    ensures DecimalValue(DecimalString(n)) == n
  {
    if n >= 10 {
      DecimalRoundTrip(n / 10);
      var r := DecimalString(n);
      assert r[..|r| - 1] == DecimalString(n / 10);
    }
  }

  /** A numeric identifier passes the search box's blank test and
      lower-casing leaves it as it is. */
  lemma DecimalStringPassesSearch(n: nat)
    ensures !IsBlank(DecimalString(n))
    ensures Lower(DecimalString(n)) == DecimalString(n)
  {
  }
}
