/** The part of Go's `strings` and `unicode` packages that the pipeline relies on:
    `strings.TrimSpace`, which removes leading and trailing white space as
    defined by `unicode.IsSpace`. */
module GoStrings {

  /** `unicode.IsSpace`: the Latin-1 spaces '\t', '\n', '\v', '\f', '\r', ' ',
      U+0085 (NEL) and U+00A0 (NBSP), and the other characters with the Unicode
      White_Space property. */
  predicate IsSpace(c: char) {
    || c == ' ' || c == '\t' || c == '\n' || c == '\U{000B}' || c == '\U{000C}' || c == '\r'
    || c == '\U{0085}' || c == '\U{00A0}' || c == '\U{1680}'
    || ('\U{2000}' <= c <= '\U{200A}')
    || c == '\U{2028}' || c == '\U{2029}' || c == '\U{202F}' || c == '\U{205F}' || c == '\U{3000}'
  }

  /** Every character of `s` is white space (vacuously true of ""). */
  predicate AllSpace(s: string) {
    forall i | 0 <= i < |s| :: IsSpace(s[i])
  }

  /** Drops the white space at the front of `s`. */
  function TrimLeftSpace(s: string): (r: string)
    ensures |r| <= |s| && r == s[|s| - |r|..]
    ensures r == [] || !IsSpace(r[0])
    ensures forall i | 0 <= i < |s| - |r| :: IsSpace(s[i])
    decreases |s|
  {
    if s != [] && IsSpace(s[0]) then TrimLeftSpace(s[1..]) else s
  }

  /** Drops the white space at the back of `s`. */
  function TrimRightSpace(s: string): (r: string)
    ensures |r| <= |s| && r == s[..|r|]
    ensures r == [] || !IsSpace(r[|r| - 1])
    ensures forall i | |r| <= i < |s| :: IsSpace(s[i])
    decreases |s|
  {
    if s != [] && IsSpace(s[|s| - 1]) then TrimRightSpace(s[..|s| - 1]) else s
  }

  /** `strings.TrimSpace`: `s` with all leading and trailing white space
      removed. It is empty exactly when `s` is blank, and otherwise starts and
      ends with a character that is not white space. */
  function TrimSpace(s: string): (r: string)
    ensures r == [] <==> AllSpace(s)
    ensures r == [] || (!IsSpace(r[0]) && !IsSpace(r[|r| - 1]))
  {
    var left := TrimLeftSpace(s);
    var r := TrimRightSpace(left);
    assert r != [] ==> !AllSpace(s) by {
      if r != [] { assert s[|s| - |left|] == r[0]; }
    }
    r
  }

  /** What `TrimSpace` removes is white space and what it keeps is a
      contiguous slice of its input. */
  lemma TrimSpaceSlice(s: string)
    ensures exists k | 0 <= k <= |s| - |TrimSpace(s)| ::
      AllSpace(s[..k]) && TrimSpace(s) <= s[k..] && AllSpace(s[k + |TrimSpace(s)|..])
  {
    var left := TrimLeftSpace(s);
    var r := TrimRightSpace(left);
    var k := |s| - |left|;
    assert r == s[k..k + |r|];
    assert AllSpace(s[..k]) && r <= s[k..] && AllSpace(s[k + |r|..]);
  }
}
