/**
 * The pieces of Go's `strings` and `unicode` packages the backend relies on:
 * `strings.EqualFold` (roles and view names), `strings.TrimSpace` (user
 * search) and `strings.HasPrefix`.
 */
module GoStrings {

  /** `unicode.IsSpace`: the Latin-1 spaces plus every other White_Space code point. */
  predicate IsSpace(c: char) {
    || c == ' ' || c == '\t' || c == '\n' || c == '\r' || c == '\U{000B}' || c == '\U{000C}'
    || c == '\U{0085}' || c == '\U{00A0}' || c == '\U{1680}'
    || ('\U{2000}' <= c <= '\U{200A}')
    || c == '\U{2028}' || c == '\U{2029}' || c == '\U{202F}' || c == '\U{205F}' || c == '\U{3000}'
  }

  predicate AllSpace(s: string) {
    forall k | 0 <= k < |s| :: IsSpace(s[k])
  }

  /** Number of white-space characters at the start of `s`. */
  function LeadingSpace(s: string): (n: nat)
    ensures n <= |s|
    ensures AllSpace(s[..n])
    ensures n < |s| ==> !IsSpace(s[n])
  {
    if |s| > 0 && IsSpace(s[0]) then
      var m := LeadingSpace(s[1..]);
      assert s[1..][..m] == s[1..m + 1];
      1 + m
    else
      0
  }

  /** Number of white-space characters at the end of `s`. */
  function TrailingSpace(s: string): (n: nat)
    ensures n <= |s|
    ensures AllSpace(s[|s| - n..])
    ensures n < |s| ==> !IsSpace(s[|s| - n - 1])
  {
    if |s| > 0 && IsSpace(s[|s| - 1]) then
      var m := TrailingSpace(s[..|s| - 1]);
      assert s[..|s| - 1][|s| - 1 - m..] == s[|s| - 1 - m..|s| - 1];
      1 + m
    else
      0
  }

  /** `r` is what remains of `s` once a white-space prefix of length `i` and a white-space suffix are cut off. */
  predicate TrimmedAt(s: string, r: string, i: nat) {
    && i + |r| <= |s|
    && s[i..i + |r|] == r
    && AllSpace(s[..i])
    && AllSpace(s[i + |r|..])
  }

  /** `strings.TrimSpace`. */
  function TrimSpace(s: string): (r: string)
    ensures TrimmedAt(s, r, LeadingSpace(s))
    ensures |r| > 0 ==> !IsSpace(r[0]) && !IsSpace(r[|r| - 1])
    ensures r == [] <==> AllSpace(s)
  {
    var i := LeadingSpace(s);
    var rest := s[i..];
    var j := TrailingSpace(rest);
    assert rest[|rest| - j..] == s[|s| - j..];
    var r := rest[..|rest| - j];
    assert r == [] ==> AllSpace(s) by {
      if r == [] {
        assert i == |s|;
        forall k | 0 <= k < |s| ensures IsSpace(s[k]) {
          assert s[k] == s[..i][k];
        }
      }
    }
    r
  }

  /** Trimming twice trims nothing more. */
  lemma TrimSpaceIdempotent(s: string)
    ensures TrimSpace(TrimSpace(s)) == TrimSpace(s)
  {
    var r := TrimSpace(s);
    assert LeadingSpace(r) == 0;
    assert r[0..] == r;
    assert TrailingSpace(r) == 0;
    assert r[..|r|] == r;
  }

  /** One step of Go's simple case folding, reduced to what matters against ASCII literals. */
  function FoldChar(c: char): char {
    if 'A' <= c <= 'Z' then (c as int + 32) as char
    else if c == '\U{017F}' then 's'  // LATIN SMALL LETTER LONG S folds with s and S
    else if c == '\U{212A}' then 'k'  // KELVIN SIGN folds with k and K
    else c
  }

  /** `strings.EqualFold`, exact whenever one side is ASCII, as every call site is. */
  predicate EqualFold(a: string, b: string) {
    |a| == |b| && forall k | 0 <= k < |a| :: FoldChar(a[k]) == FoldChar(b[k])
  }

  /** `strings.HasPrefix` (and JavaScript's `startsWith`). */
  predicate HasPrefix(s: string, prefix: string) {
    |prefix| <= |s| && s[..|prefix|] == prefix
  }
}
