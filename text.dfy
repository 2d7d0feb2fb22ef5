/**
 * The Python string built-ins the downloader relies on, over `string` (a `seq<char>`):
 * `str.strip()`, `str.lower()`, the substring test `needle in haystack`,
 * `str.endswith` and `str.rfind`.
 */
module Text {

  /** Python's `str.isspace` for one character. */
  predicate IsSpace(c: char) {
    ('\t' <= c <= '\r') || ('\U{1C}' <= c <= '\U{1F}') || c == ' '
    || c == '\U{85}' || c == '\U{A0}' || c == '\U{1680}'
    || ('\U{2000}' <= c <= '\U{200A}') || c == '\U{2028}' || c == '\U{2029}'
    || c == '\U{202F}' || c == '\U{205F}' || c == '\U{3000}'
  }

  /** Every character of `s` at an index in `lo..hi` is white space. */
  predicate SpaceBetween(s: string, lo: int, hi: int)
    requires 0 <= lo <= hi <= |s|
  {
    forall k :: lo <= k < hi ==> IsSpace(s[k])
  }

  predicate AllSpace(s: string) {
    SpaceBetween(s, 0, |s|)
  }

  /** `needle` occurs in `haystack` starting at index `i`, stated character by character. */
  predicate OccursAt(haystack: string, needle: string, i: int) {
    0 <= i && i + |needle| <= |haystack| && forall k :: 0 <= k < |needle| ==> haystack[i + k] == needle[k]
  }

  /** The first index from `i` on that does not hold white space, or `|s|` when there is none. */
  function SkipSpace(s: string, i: int): (r: int)
    requires 0 <= i <= |s|
    ensures i <= r <= |s| && SpaceBetween(s, i, r)
    ensures r == |s| || !IsSpace(s[r])
    decreases |s| - i
  {
    if i < |s| && IsSpace(s[i]) then SkipSpace(s, i + 1) else i
  }

  /** Walking back from `hi` but not past `lo`: where the trailing white space of `s[lo..hi]` starts. */
  function SkipSpaceBack(s: string, lo: int, hi: int): (r: int)
    requires 0 <= lo <= hi <= |s|
    ensures lo <= r <= hi && SpaceBetween(s, r, hi)
    ensures r == lo || !IsSpace(s[r - 1])
    decreases hi
  {
    if lo < hi && IsSpace(s[hi - 1]) then SkipSpaceBack(s, lo, hi - 1) else hi
  }

  /** `r` sits in `s` at index `i` with nothing but white space around it. */
  predicate StrippedAt(s: string, r: string, i: int) {
    OccursAt(s, r, i) && SpaceBetween(s, 0, i) && SpaceBetween(s, i + |r|, |s|)
  }

  /** `s.strip()`: `s` with white space taken off both ends, and nothing else. */
  function Strip(s: string): (r: string)
    ensures exists i :: StrippedAt(s, r, i)
    ensures r == [] || (!IsSpace(r[0]) && !IsSpace(r[|r| - 1]))
  {
    var lo := SkipSpace(s, 0);
    var hi := SkipSpaceBack(s, lo, |s|);
    assert StrippedAt(s, s[lo..hi], lo);
    s[lo..hi]
  }

  /** A string strips to nothing exactly when it is all white space (Python's `not s.strip()`). */
  lemma StripEmptyIff(s: string)
    ensures Strip(s) == [] <==> AllSpace(s)
  {
    var r := Strip(s);
    var i :| StrippedAt(s, r, i);
    if r != [] {
      assert r[0] == s[i];
    }
  }

  /** Python's `str.lower()` on ASCII letters. */
  function LowerChar(c: char): char {
    if 'A' <= c <= 'Z' then (c as int + 32) as char else c
  }

  function Lower(s: string): (r: string)
    ensures |r| == |s|
    ensures forall i :: 0 <= i < |s| ==> r[i] == LowerChar(s[i])
  {
    seq(|s|, i requires 0 <= i < |s| => LowerChar(s[i]))
  }

  /** Lower-casing distributes over concatenation. */
  lemma LowerAppend(a: string, b: string)
    ensures Lower(a + b) == Lower(a) + Lower(b)
  {
  }

  /** Lower-casing twice is lower-casing once. */
  lemma LowerIdempotent(s: string)
    ensures Lower(Lower(s)) == Lower(s)
  {
  }

  /** Python's `needle in haystack`: a scan of the start positions from `i` on. */
  predicate ContainsFrom(haystack: string, needle: string, i: nat)
    decreases |haystack| - i
  {
    i + |needle| <= |haystack| && (OccursAt(haystack, needle, i) || ContainsFrom(haystack, needle, i + 1))
  }

  predicate Contains(haystack: string, needle: string) {
    ContainsFrom(haystack, needle, 0)
  }

  /** The scan from `i` succeeds exactly when the needle occurs at some index from `i` on. */
  lemma {:induction false} ContainsFromOccurs(haystack: string, needle: string, i: nat)
    ensures ContainsFrom(haystack, needle, i) <==> exists j :: i <= j && OccursAt(haystack, needle, j)
    decreases |haystack| - i
  {
    if i + |needle| <= |haystack| {
      ContainsFromOccurs(haystack, needle, i + 1);
    }
  }

  /** The substring test holds exactly when the needle occurs at some index. */
  lemma ContainsOccurs(haystack: string, needle: string)
    ensures Contains(haystack, needle) <==> exists i :: OccursAt(haystack, needle, i)
  {
    ContainsFromOccurs(haystack, needle, 0);
  }

  /** Whatever is embedded in a string is contained in it. */
  lemma ContainsInfix(a: string, needle: string, b: string)
    ensures Contains(a + needle + b, needle)
  {
    assert OccursAt(a + needle + b, needle, |a|);
    ContainsOccurs(a + needle + b, needle);
  }

  /** Containment is transitive. */
  lemma ContainsTrans(haystack: string, middle: string, needle: string)
    requires Contains(haystack, middle) && Contains(middle, needle)
    ensures Contains(haystack, needle)
  {
    ContainsOccurs(haystack, middle);
    ContainsOccurs(middle, needle);
    var i :| OccursAt(haystack, middle, i);
    var j :| OccursAt(middle, needle, j);
    forall k | 0 <= k < |needle| ensures haystack[i + j + k] == needle[k] {
      assert needle[k] == middle[j + k] == haystack[i + (j + k)];
    }
    assert OccursAt(haystack, needle, i + j);
    ContainsOccurs(haystack, needle);
  }

  /** Python's `s.endswith(suffix)` (case-sensitive). */
  predicate EndsWith(s: string, suffix: string) {
    OccursAt(s, suffix, |s| - |suffix|)
  }

  /** The last index below `n` that holds `c`, or -1 when there is none. */
  function LastBefore(s: string, c: char, n: int): (r: int)
    requires 0 <= n <= |s|
    ensures -1 <= r < n
    ensures r >= 0 ==> s[r] == c
    ensures forall k :: r < k < n ==> s[k] != c
  {
    if n == 0 then -1 else if s[n - 1] == c then n - 1 else LastBefore(s, c, n - 1)
  }

  /** Python's `s.rfind(c)`: the index of the last `c` in `s`, or -1 when there is none. */
  function RFind(s: string, c: char): int {
    LastBefore(s, c, |s|)
  }
}
