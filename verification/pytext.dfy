/** The two pieces of Python's `str` behaviour the service relies on:
    `str.strip()` with no argument and `str.startswith(prefix)`. */
module PyText {

  /** The characters Python's `str.isspace()` accepts, which are exactly the
      characters `str.strip()` removes when it is given no argument. */
  predicate IsSpace(c: char) {
    || c == ' '
    || ('\t' <= c <= '\r')               // \t \n \v \f \r
    || ('\U{1C}' <= c <= '\U{1F}')       // file, group, record and unit separators
    || c == '\U{85}' || c == '\U{A0}' || c == '\U{1680}'
    || ('\U{2000}' <= c <= '\U{200A}')
    || c == '\U{2028}' || c == '\U{2029}' || c == '\U{202F}' || c == '\U{205F}' || c == '\U{3000}'
  }

  /** Every character of `s` is whitespace (the empty string included). */
  predicate Blank(s: string) {
    forall i :: 0 <= i < |s| ==> IsSpace(s[i])
  }

  /** Python's `s.startswith(prefix)`. */
  predicate StartsWith(s: string, prefix: string) {
    |prefix| <= |s| && s[..|prefix|] == prefix
  }

  /** `s.lstrip()`: what is left after the leading whitespace is removed. */
  function StripStart(s: string): (r: string)
    ensures |r| <= |s| && r == s[|s| - |r|..]
    ensures forall i :: 0 <= i < |s| - |r| ==> IsSpace(s[i])
    ensures r == [] || !IsSpace(r[0])
  {
    if |s| > 0 && IsSpace(s[0]) then StripStart(s[1..]) else s
  }

  /** `s.rstrip()`: what is left after the trailing whitespace is removed. */
  function StripEnd(s: string): (r: string)
    ensures |r| <= |s| && r == s[..|r|]
    ensures forall i :: |r| <= i < |s| ==> IsSpace(s[i])
    ensures r == [] || !IsSpace(r[|r| - 1])
  {
    if |s| > 0 && IsSpace(s[|s| - 1]) then StripEnd(s[..|s| - 1]) else s
  }

  /** `s.strip()`: leading and trailing whitespace removed. What is left
      neither starts nor ends with whitespace. */
  function Strip(s: string): (r: string)
    ensures |r| <= |s|
    ensures r == [] || (!IsSpace(r[0]) && !IsSpace(r[|r| - 1]))
  {
    StripEnd(StripStart(s))
  }

  /** `r` is the piece `s[a..b]` of `s`, and everything cut away on either
      side is whitespace. */
  predicate TrimOf(r: string, s: string, a: int, b: int) {
    0 <= a <= b <= |s| && r == s[a..b] && Blank(s[..a]) && Blank(s[b..])
  }

  /** What `StripStart` cuts off is whitespace. */
  lemma StripStartCutIsBlank(s: string)
    ensures Blank(s[..|s| - |StripStart(s)|])
  {
  }

  /** What `StripEnd` cuts off is whitespace. */
  lemma StripEndCutIsBlank(s: string)
    ensures Blank(s[|StripEnd(s)|..])
  {
  }

  /** `Strip` keeps the piece `s[a..b]` of `s` and cuts away only whitespace. */
  lemma StripIsTrim(s: string) returns (a: nat, b: nat)
    ensures TrimOf(Strip(s), s, a, b)
  {
    var left := StripStart(s);
    var r := StripEnd(left);
    a := |s| - |left|;
    b := a + |r|;
    assert left == s[a..];
    assert r == s[a..b];
    StripStartCutIsBlank(s);
    StripEndCutIsBlank(left);
    assert s[b..] == left[|r|..];
  }

  /** The test `not text.strip()` holds exactly for blank text. */
  lemma StripEmptyIffBlank(s: string)
    ensures Strip(s) == [] <==> Blank(s)
  {
  }
}
