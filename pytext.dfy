/** Python's `str.strip()` with no argument, the only string operation the
    reply form and the grading tool rely on. */
module PyText {

  /** Python's `str.isspace()` for one code point: the ASCII controls TAB..CR,
      the separators U+001C..U+001F, SPACE, NEL, NO-BREAK SPACE and the
      Unicode space separators and line/paragraph separators. */
  predicate IsWhitespace(c: char) {
    var n := c as int;
    (0x09 <= n <= 0x0D) || (0x1C <= n <= 0x20) || n == 0x85 || n == 0xA0 ||
    n == 0x1680 || (0x2000 <= n <= 0x200A) || n == 0x2028 || n == 0x2029 ||
    n == 0x202F || n == 0x205F || n == 0x3000
  }

  /** Every character of `s[lo..hi]` is whitespace. */
  ghost predicate BlankBetween(s: string, lo: int, hi: int)
    requires 0 <= lo <= hi <= |s|
  {
    forall i :: lo <= i < hi ==> IsWhitespace(s[i])
  }

  /** Every character of `s` is whitespace (the empty string included). */
  ghost predicate IsBlank(s: string) {
    BlankBetween(s, 0, |s|)
  }

  /** The first index at or after `i` that holds a non-whitespace character,
      or `|s|` when there is none. */
  function SkipLeading(s: string, i: nat): (a: nat)
    requires i <= |s|
    ensures i <= a <= |s| && BlankBetween(s, i, a)
    ensures a < |s| ==> !IsWhitespace(s[a])
    decreases |s| - i
  {
    if i < |s| && IsWhitespace(s[i]) then SkipLeading(s, i + 1) else i
  }

  /** The end of `s[lo..j]` once its trailing whitespace is dropped. */
  function SkipTrailing(s: string, lo: nat, j: nat): (e: nat)
    requires lo <= j <= |s|
    ensures lo <= e <= j && BlankBetween(s, e, j)
    ensures lo < e ==> !IsWhitespace(s[e - 1])
    decreases j
  {
    if lo < j && IsWhitespace(s[j - 1]) then SkipTrailing(s, lo, j - 1) else j
  }

  /** `s.strip()`: it starts and ends with a non-whitespace character, and
      it is empty exactly when `s` is blank (`StripKeepsMiddle` says which
      part of `s` it is). */
  function Strip(s: string): (r: string)
    ensures |r| <= |s|
    ensures r != [] ==> !IsWhitespace(r[0]) && !IsWhitespace(r[|r| - 1])
    ensures r == [] <==> IsBlank(s)
  {
    var a := SkipLeading(s, 0);
    var e := SkipTrailing(s, a, |s|);
    assert e == a ==> a == |s|;
    s[a..e]
  }

  /** `s.strip()` removes a blank prefix and a blank suffix and nothing else. */
  lemma {:induction false} StripKeepsMiddle(s: string)
    ensures exists a :: 0 <= a <= |s| - |Strip(s)| && s[a..a + |Strip(s)|] == Strip(s)
                        && BlankBetween(s, 0, a) && BlankBetween(s, a + |Strip(s)|, |s|)
  {
    var a := SkipLeading(s, 0);
    assert s[a..a + |Strip(s)|] == Strip(s);
  }

  /** A string that neither starts nor ends with whitespace is its own strip. */
  lemma {:induction false} StripUnpadded(s: string)
    requires s != [] && !IsWhitespace(s[0]) && !IsWhitespace(s[|s| - 1])
    ensures Strip(s) == s
  {
    assert SkipLeading(s, 0) == 0;
    assert SkipTrailing(s, 0, |s|) == |s|;
  }

  /** Stripping twice is stripping once. */
  lemma {:induction false} StripIdempotent(s: string)
    ensures Strip(Strip(s)) == Strip(s)
  {
    var r := Strip(s);
    if r != [] {
      StripUnpadded(r);
    }
  }
}
