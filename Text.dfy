/**
 * The few string operations of Python's `str` that the uploader relies on:
 * `strip()` (with Python's notion of whitespace), `lower()`, `startswith()`
 * and the position of the first occurrence of a character (what
 * `split(sep, 1)` splits at).
 */
module Text {

  /** The characters for which Python's `str.isspace()` holds; `strip()` removes exactly these. */
  predicate IsSpace(c: char)
  {
    || c == ' '
    || ('\t' <= c <= '\r')
    || ('\U{1C}' <= c <= '\U{1F}')
    || c == '\U{85}' || c == '\U{A0}' || c == '\U{1680}'
    || ('\U{2000}' <= c <= '\U{200A}')
    || c == '\U{2028}' || c == '\U{2029}' || c == '\U{202F}' || c == '\U{205F}' || c == '\U{3000}'
  }

  predicate AllSpace(s: string)
  {
    forall i :: 0 <= i < |s| ==> IsSpace(s[i])
  }

  /** True when s has no whitespace at either end (what `strip()` produces). */
  predicate Stripped(s: string)
  {
    s == [] || (!IsSpace(s[0]) && !IsSpace(s[|s| - 1]))
  }

  /** The first index at or after i that does not hold whitespace (|s| if none). */
  function SkipSpaces(s: string, i: nat): (n: nat)
    requires i <= |s|
    ensures i <= n <= |s|
    ensures forall k :: i <= k < n ==> IsSpace(s[k])
    ensures n < |s| ==> !IsSpace(s[n])
    decreases |s| - i
  {
    if i < |s| && IsSpace(s[i]) then SkipSpaces(s, i + 1) else i
  }

  /** The end of s once the whitespace just before index j is dropped. */
  function SkipSpacesBack(s: string, j: nat): (n: nat)
    requires j <= |s|
    ensures n <= j
    ensures forall k :: n <= k < j ==> IsSpace(s[k])
    ensures 0 < n ==> !IsSpace(s[n - 1])
  {
    if 0 < j && IsSpace(s[j - 1]) then SkipSpacesBack(s, j - 1) else j
  }

  /** Number of whitespace characters at the front of s. */
  function LeadingSpaces(s: string): (n: nat)
    ensures n <= |s|
  {
    SkipSpaces(s, 0)
  }

  /** Python's `s.strip()`: s without its leading and trailing whitespace. */
  function Trim(s: string): (r: string)
    ensures |r| <= |s|
    ensures Stripped(r)
  {
    var a := SkipSpaces(s, 0);
    if a == |s| then [] else s[a..SkipSpacesBack(s, |s|)]
  }

  /**
   * What `strip()` returns is empty exactly when s is all whitespace, has no
   * whitespace at either end, and is the slice of s that starts right after
   * the leading whitespace and is followed only by whitespace.
   */
  lemma TrimSpec(s: string)
    ensures Trim(s) == [] <==> AllSpace(s)
    ensures Stripped(Trim(s))
    ensures LeadingSpaces(s) + |Trim(s)| <= |s|
    ensures Trim(s) == s[LeadingSpaces(s)..LeadingSpaces(s) + |Trim(s)|]
    ensures forall i :: 0 <= i < LeadingSpaces(s) ==> IsSpace(s[i])
    ensures forall i :: LeadingSpaces(s) + |Trim(s)| <= i < |s| ==> IsSpace(s[i])
  {
  }

  /**
   * `strip()` is determined by where the text starts and ends: if s is
   * whitespace before a and from b on, and s[a..b] has no whitespace at its
   * ends, then stripping s gives s[a..b].
   */
  lemma TrimIs(s: string, a: nat, b: nat)
    requires a <= b <= |s|
    requires forall i :: 0 <= i < a ==> IsSpace(s[i])
    requires forall i :: b <= i < |s| ==> IsSpace(s[i])
    requires Stripped(s[a..b])
    ensures Trim(s) == s[a..b]
  {
    if a < b {
      assert s[a] == s[a..b][0] && !IsSpace(s[a]);
      assert s[b - 1] == s[a..b][b - a - 1] && !IsSpace(s[b - 1]);
      assert LeadingSpaces(s) == a;
      assert SkipSpacesBack(s, |s|) == b;
    } else {
      assert AllSpace(s);
      assert LeadingSpaces(s) == |s|;
    }
  }

  /** A string with no whitespace at its ends is left alone by `strip()`. */
  lemma TrimOfStripped(s: string)
    requires Stripped(s)
    ensures Trim(s) == s
  {
    TrimIs(s, 0, |s|);
    assert s[0..|s|] == s;
  }

  /** Stripping never introduces a character. */
  lemma TrimKeepsOnlyOwnChars(s: string, c: char)
    requires c !in s
    ensures c !in Trim(s)
  {
    TrimSpec(s);
    var a := LeadingSpaces(s);
    var t := Trim(s);
    forall i | 0 <= i < |t| ensures t[i] != c {
      assert t[i] == s[a + i];
    }
  }

  /** A character of s that is not whitespace is kept by `strip()`. */
  lemma NonSpaceSurvivesTrim(s: string, c: char)
    requires c in s && !IsSpace(c)
    ensures c in Trim(s)
  {
    TrimSpec(s);
    var i :| 0 <= i < |s| && s[i] == c;
    var a := LeadingSpaces(s);
    var t := Trim(s);
    assert !IsSpace(s[i]);
    assert a <= i < a + |t|;
    assert t[i - a] == c;
  }

  /** Index of the first occurrence of c in s. */
  function FirstIndex(s: string, c: char): (i: nat)
    requires c in s
    ensures i < |s| && s[i] == c
    ensures forall k :: 0 <= k < i ==> s[k] != c
  {
    if s[0] == c then 0
    else
      var j := FirstIndex(s[1..], c);
      assert forall k :: 1 <= k < 1 + j ==> s[k] == s[1..][k - 1];
      1 + j
  }

  /** The first occurrence is the only index holding c with no c before it. */
  lemma FirstIndexUnique(s: string, c: char, k: nat)
    requires k < |s| && s[k] == c
    requires forall m :: 0 <= m < k ==> s[m] != c
    ensures FirstIndex(s, c) == k
  {
  }

  function LowerChar(c: char): char
  {
    if 'A' <= c <= 'Z' then (c as int + 32) as char else c
  }

  /** Python's `s.lower()` restricted to ASCII letters. */
  function Lower(s: string): string
  {
    seq(|s|, i requires 0 <= i < |s| => LowerChar(s[i]))
  }

  /** A string without upper-case ASCII letters is its own lower-case form. */
  lemma LowerUnchanged(s: string)
    requires forall i :: 0 <= i < |s| ==> !('A' <= s[i] <= 'Z')
    ensures Lower(s) == s
  {
  }

  /** Python's `s.startswith(prefix)`. */
  predicate StartsWith(s: string, prefix: string)
  {
    |prefix| <= |s| && s[..|prefix|] == prefix
  }
}
