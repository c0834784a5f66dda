/**
 * The handful of Python string operations the two cores rely on:
 * truthiness, `lower`, `endswith`, `strip`, `" ".join` and the
 * substring test `a in b`.
 */
module Strings {
  import opened Wrappers

  /** Python truthiness of a value that is `None` or a `str`: both `None` and `""` are false. */
  predicate Truthy(v: Option<string>)
  {
    v.Some? && v.value != ""
  }

  /** `str.lower()` on one character (ASCII letters only, see README). */
  function LowerChar(c: char): char
  {
    if 'A' <= c <= 'Z' then (c as int + 32) as char else c
  }

  function Lower(s: string): string
  {
    seq(|s|, i requires 0 <= i < |s| => LowerChar(s[i]))
  }

  predicate StartsWith(s: string, prefix: string)
  {
    |prefix| <= |s| && s[..|prefix|] == prefix
  }

  predicate EndsWith(s: string, suffix: string)
  {
    |suffix| <= |s| && s[|s| - |suffix|..] == suffix
  }

  /** Python's `t in s` for two strings: `t` occurs contiguously in `s` (the empty string always does). */
  predicate IsSubstringOf(t: string, s: string)
    decreases |s|
  {
    StartsWith(s, t) || (s != [] && IsSubstringOf(t, s[1..]))
  }

  /** The characters `str.strip()` removes when called without arguments (`str.isspace`). */
  const PyWhitespace: set<char> :=
    {' ', '\t', '\n', '\r', '\U{B}', '\U{C}', '\U{1C}', '\U{1D}', '\U{1E}', '\U{1F}', '\U{85}', '\U{A0}',
     '\U{1680}', '\U{2000}', '\U{2001}', '\U{2002}', '\U{2003}', '\U{2004}', '\U{2005}', '\U{2006}',
     '\U{2007}', '\U{2008}', '\U{2009}', '\U{200A}', '\U{2028}', '\U{2029}', '\U{202F}', '\U{205F}',
     '\U{3000}'}

  /** The characters of `strip("'\" ")`: single quote, double quote and space. */
  const QuoteChars: set<char> := {'\'', '"', ' '}

  /** `s.lstrip(cs)`: drops the longest prefix made of characters of `cs`. */
  function StripLeft(s: string, cs: set<char>): (r: string)
    ensures |r| <= |s| && r == s[|s| - |r|..]
    ensures r != [] ==> r[0] !in cs
    ensures forall k :: 0 <= k < |s| - |r| ==> s[k] in cs
    decreases |s|
  {
    if s != [] && s[0] in cs then StripLeft(s[1..], cs) else s
  }

  /** `s.rstrip(cs)`: drops the longest suffix made of characters of `cs`. */
  function StripRight(s: string, cs: set<char>): (r: string)
    ensures |r| <= |s| && r == s[..|r|]
    ensures r != [] ==> r[|r| - 1] !in cs
    ensures forall k :: |r| <= k < |s| ==> s[k] in cs
    decreases |s|
  {
    if s != [] && s[|s| - 1] in cs then StripRight(s[..|s| - 1], cs) else s
  }

  /** `s.strip(cs)`: the result neither begins nor ends with a character of `cs`. */
  function Strip(s: string, cs: set<char>): (r: string)
    ensures |r| <= |s|
    ensures r != [] ==> r[0] !in cs && r[|r| - 1] !in cs
  {
    StripRight(StripLeft(s, cs), cs)
  }

  /**
   * What `strip` keeps: a contiguous slice of `s` with only characters
   * of `cs` before and after it.
   */
  lemma StripIsSlice(s: string, cs: set<char>)
    ensures exists a, b :: 0 <= a <= b <= |s| && Strip(s, cs) == s[a..b]
              && (forall k :: 0 <= k < a ==> s[k] in cs) && (forall k :: b <= k < |s| ==> s[k] in cs)
  {
    var left := StripLeft(s, cs);
    var r := Strip(s, cs);
    var a := |s| - |left|;
    assert r == s[a..a + |r|];
    assert forall k :: a + |r| <= k < |s| ==> s[k] == left[k - a];
  }

  /** A string that does not begin or end with a character of `cs` is left alone by `strip`. */
  lemma StripFixed(s: string, cs: set<char>)
    requires s != [] ==> s[0] !in cs && s[|s| - 1] !in cs
    ensures Strip(s, cs) == s
  {
  }

  /** `strip` is idempotent. */
  lemma StripIdempotent(s: string, cs: set<char>)
    ensures Strip(Strip(s, cs), cs) == Strip(s, cs)
  {
    StripFixed(Strip(s, cs), cs);
  }

  /** `" ".join(parts)`. */
  function JoinSpaces(parts: seq<string>): string
  {
    if parts == [] then ""
    else if |parts| == 1 then parts[0]
    else parts[0] + " " + JoinSpaces(parts[1..])
  }
}
