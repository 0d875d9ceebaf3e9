/** String helpers that mirror the Python built-ins the source relies on. */
module Text {

  /** Python's `needle in haystack` for two strings. */
  predicate Contains(haystack: string, needle: string)
    decreases |haystack|
  {
    needle <= haystack || (|haystack| > 0 && Contains(haystack[1..], needle))
  }

  lemma {:induction false} ContainsPrefix(s: string, t: string, needle: string)
    requires Contains(s, needle)
    ensures Contains(s + t, needle)
    decreases |s|
  {
    if needle <= s {
      assert needle <= s + t by {
        assert (s + t)[..|needle|] == s[..|needle|];
      }
    } else {
      assert (s + t)[1..] == s[1..] + t;
      ContainsPrefix(s[1..], t, needle);
    }
  }

  /** A needle whose first character `haystack` lacks does not occur in it. */
  lemma {:induction false} NoFirstCharNoContains(haystack: string, needle: string)
    requires needle != []
    requires needle[0] !in haystack
    ensures !Contains(haystack, needle)
    decreases |haystack|
  {
    if haystack != [] {
      assert haystack[0] != needle[0] && haystack == [haystack[0]] + haystack[1..];
      NoFirstCharNoContains(haystack[1..], needle);
    }
  }

  /** The first index of `c` in `s`, or `|s|` when `c` does not occur (Python's `find`, with `-1` shifted to `|s|`). */
  function IndexOf(s: string, c: char): (i: nat)
    ensures i <= |s|
    ensures i < |s| ==> s[i] == c
    ensures forall k :: 0 <= k < i ==> s[k] != c
  {
    if s == [] then 0
    else if s[0] == c then 0
    else 1 + IndexOf(s[1..], c)
  }

  /** The first index of any character of `cs` in `s`, or `|s|`. */
  function IndexOfAny(s: string, cs: set<char>): (i: nat)
    ensures i <= |s|
    ensures i < |s| ==> s[i] in cs
    ensures forall k :: 0 <= k < i ==> s[k] !in cs
  {
    if s == [] then 0
    else if s[0] in cs then 0
    else 1 + IndexOfAny(s[1..], cs)
  }

  /** The last index of `c` in `s`, or `-1` (Python's `rfind`). */
  function LastIndexOf(s: string, c: char): (i: int)
    ensures -1 <= i < |s|
    ensures 0 <= i ==> s[i] == c
  {
    if s == [] then -1
    else if s[|s| - 1] == c then |s| - 1
    else LastIndexOf(s[..|s| - 1], c)
  }

  /** No occurrence of `c` lies after the index `LastIndexOf` finds. */
  lemma {:induction false} LastIndexOfIsLast(s: string, c: char)
    ensures forall j :: LastIndexOf(s, c) < j < |s| ==> s[j] != c
  {
    if s != [] && s[|s| - 1] != c {
      LastIndexOfIsLast(s[..|s| - 1], c);
      assert forall j :: 0 <= j < |s| - 1 ==> s[..|s| - 1][j] == s[j];
    }
  }

  /** `str.lower()` restricted to ASCII letters. */
  function AsciiLowerChar(c: char): char {
    if 'A' <= c <= 'Z' then (c as int + 32) as char else c
  }

  /** `str.upper()` restricted to ASCII letters. */
  function AsciiUpperChar(c: char): char {
    if 'a' <= c <= 'z' then (c as int - 32) as char else c
  }

  function AsciiLower(s: string): (r: string)
    ensures |r| == |s|
    ensures forall i :: 0 <= i < |s| ==> r[i] == AsciiLowerChar(s[i])
  {
    seq(|s|, i requires 0 <= i < |s| => AsciiLowerChar(s[i]))
  }

  function AsciiUpper(s: string): (r: string)
    ensures |r| == |s|
    ensures forall i :: 0 <= i < |s| ==> r[i] == AsciiUpperChar(s[i])
  {
    seq(|s|, i requires 0 <= i < |s| => AsciiUpperChar(s[i]))
  }

  predicate IsAsciiLetter(c: char) {
    'a' <= c <= 'z' || 'A' <= c <= 'Z'
  }

  predicate IsAsciiDigit(c: char) {
    '0' <= c <= '9'
  }

  /**
   * The characters CPython treats as whitespace, both for `\s` in a str
   * pattern and for `str.strip()` without arguments.
   */
  predicate IsSpace(c: char) {
    || '\t' <= c <= '\r'
    || '\U{1C}' <= c <= '\U{1F}'
    || c == ' '
    || c == '\U{85}'
    || c == '\U{A0}'
    || c == '\U{1680}'
    || '\U{2000}' <= c <= '\U{200A}'
    || c == '\U{2028}'
    || c == '\U{2029}'
    || c == '\U{202F}'
    || c == '\U{205F}'
    || c == '\U{3000}'
  }

  /** Python's `sep.join(parts)`. */
  function Join(parts: seq<string>, sep: string): (r: string)
    ensures parts == [] ==> r == ""
    ensures |parts| == 1 ==> r == parts[0]
  {
    if parts == [] then ""
    else if |parts| == 1 then parts[0]
    else Join(parts[..|parts| - 1], sep) + sep + parts[|parts| - 1]
  }

  /** Dropping a prefix that lies inside the first part of a concatenation. */
  lemma DropAppend<T>(a: seq<T>, b: seq<T>, n: nat)
    requires n <= |a|
    ensures (a + b)[n..] == a[n..] + b
  {
  }

  lemma AppendAssoc<T>(a: seq<T>, b: seq<T>, c: seq<T>)
    ensures (a + b) + c == a + (b + c)
  {
  }

  /** A sequence is its prefix up to `i` followed by the rest. */
  lemma SplitAt<T>(s: seq<T>, i: nat)
    requires i <= |s|
    ensures s == s[..i] + s[i..]
  {
  }
}
