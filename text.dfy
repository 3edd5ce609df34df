/** The string helpers the AWS adapter relies on: Go's `strings.TrimSpace`
    (with `unicode.IsSpace` as the notion of white space) and
    `strings.ToLower`, restricted to ASCII letters. */
module Text {

  /** Go's `unicode.IsSpace`: the Latin-1 spaces plus the other code points
      with the Unicode White_Space property. */
  predicate IsSpace(c: char) {
    || c == '\t' || c == '\n' || c == '\U{000B}' || c == '\U{000C}' || c == '\r' || c == ' '
    || c == '\U{0085}' || c == '\U{00A0}' || c == '\U{1680}'
    || ('\U{2000}' <= c <= '\U{200A}')
    || c == '\U{2028}' || c == '\U{2029}' || c == '\U{202F}' || c == '\U{205F}' || c == '\U{3000}'
  }

  predicate AllSpace(s: string) {
    forall i :: 0 <= i < |s| ==> IsSpace(s[i])
  }

  /** Neither starts nor ends with white space. */
  predicate Trimmed(s: string) {
    s == [] || (!IsSpace(s[0]) && !IsSpace(s[|s| - 1]))
  }

  /** The index of the first non-space character at or after `i` (`|s|` if
      there is none): the forward scan of `TrimSpace`. */
  function FirstNonSpace(s: string, i: nat): (r: nat)
    requires i <= |s|
    ensures i <= r <= |s|
    ensures forall k :: i <= k < r ==> IsSpace(s[k])
    ensures r == |s| || !IsSpace(s[r])
    decreases |s| - i
  {
    if i < |s| && IsSpace(s[i]) then FirstNonSpace(s, i + 1) else i
  }

  /** The end of the last non-space character before `j` and not before
      `lo` (`lo` if there is none): the backward scan of `TrimSpace`. */
  function EndOfNonSpace(s: string, lo: nat, j: nat): (r: nat)
    requires lo <= j <= |s|
    ensures lo <= r <= j
    ensures forall k :: r <= k < j ==> IsSpace(s[k])
    ensures r == lo || !IsSpace(s[r - 1])
    decreases j
  {
    if j > lo && IsSpace(s[j - 1]) then EndOfNonSpace(s, lo, j - 1) else j
  }

  /** Go's `strings.TrimSpace`: the slice between the first non-space
      character and the end of the last one. */
  function TrimSpace(s: string): (r: string)
    ensures |r| <= |s|
    ensures Trimmed(r)
  {
    var start := FirstNonSpace(s, 0);
    var stop := EndOfNonSpace(s, start, |s|);
    s[start..stop]
  }

  /** Go's `strings.ToLower` on ASCII upper-case letters; every other
      character is left as it is. */
  predicate IsUpper(c: char) {
    'A' <= c <= 'Z'
  }

  function ToLowerChar(c: char): (d: char)
    ensures !IsUpper(d)
  {
    if IsUpper(c) then (c as int + 32) as char else c
  }

  /** No character of `s` is an ASCII upper-case letter. */
  predicate NoUpper(s: string) {
    forall i :: 0 <= i < |s| ==> !IsUpper(s[i])
  }

  /** `a` and `b` are the same character up to ASCII case. */
  predicate SameUpToCase(a: char, b: char) {
    || a == b
    || (IsUpper(a) && b as int == a as int + 32)
    || (IsUpper(b) && a as int == b as int + 32)
  }

  /** The result has no upper-case letter, and a string that has none is
      left as it is. */
  function ToLower(s: string): (r: string)
    ensures |r| == |s|
    ensures NoUpper(r)
    ensures NoUpper(s) ==> r == s
    ensures forall i :: 0 <= i < |s| ==> SameUpToCase(s[i], r[i])
  {
    seq(|s|, i requires 0 <= i < |s| => ToLowerChar(s[i]))
  }

  lemma ToLowerIdempotent(s: string)
    ensures ToLower(ToLower(s)) == ToLower(s)
  {
  }

  lemma ToLowerCharSame(a: char, b: char)
    ensures ToLowerChar(a) == ToLowerChar(b) <==> SameUpToCase(a, b)
  {
  }

  /** Two strings lower-case to the same string exactly when they agree up
      to ASCII case, character by character: the case-insensitive match a
      lower-cased lookup key relies on. */
  lemma {:induction false} ToLowerEqualIff(s: string, t: string)
    ensures ToLower(s) == ToLower(t) <==>
              |s| == |t| && forall i :: 0 <= i < |s| ==> SameUpToCase(s[i], t[i])
  {
    if |s| == |t| {
      forall i | 0 <= i < |s|
        ensures ToLower(s)[i] == ToLower(t)[i] <==> SameUpToCase(s[i], t[i])
      {
        ToLowerCharSame(s[i], t[i]);
      }
    }
  }

  /** The forward scan stops at the first index that is not white space. */
  lemma FirstNonSpaceAt(s: string, i: nat, k: nat)
    requires i <= k <= |s|
    requires forall m :: i <= m < k ==> IsSpace(s[m])
    requires k == |s| || !IsSpace(s[k])
    ensures FirstNonSpace(s, i) == k
  {
  }

  /** The backward scan stops at the end of the last character that is not white space. */
  lemma EndOfNonSpaceAt(s: string, lo: nat, j: nat, k: nat)
    requires lo <= k <= j <= |s|
    requires forall m :: k <= m < j ==> IsSpace(s[m])
    requires k == lo || !IsSpace(s[k - 1])
    ensures EndOfNonSpace(s, lo, j) == k
  {
  }

  /** The characterisation of `TrimSpace`: surrounded by any white space on
      either side, a string with no white space at its ends is exactly what
      `TrimSpace` gives back. */
  lemma TrimSpaceOfPadded(p: string, core: string, q: string)
    requires AllSpace(p) && AllSpace(q) && Trimmed(core)
    ensures TrimSpace(p + core + q) == core
  {
    var x := p + core + q;
    assert forall m :: 0 <= m < |p| ==> x[m] == p[m];
    assert forall m :: |p| + |core| <= m < |x| ==> x[m] == q[m - |p| - |core|];
    if core == [] {
      FirstNonSpaceAt(x, 0, |x|);
      EndOfNonSpaceAt(x, |x|, |x|, |x|);
    } else {
      assert x[|p|] == core[0];
      assert x[|p| + |core| - 1] == core[|core| - 1];
      FirstNonSpaceAt(x, 0, |p|);
      EndOfNonSpaceAt(x, |p|, |x|, |p| + |core|);
      assert x[|p|..|p| + |core|] == core;
    }
  }

  lemma TrimSpaceIdempotent(s: string)
    ensures TrimSpace(TrimSpace(s)) == TrimSpace(s)
  {
    var r := TrimSpace(s);
    TrimSpaceOfPadded([], r, []);
    assert [] + r + [] == r;
  }

  /** What `TrimSpace` drops from either end is white space. */
  lemma TrimSpaceSplit(s: string) returns (p: string, q: string)
    ensures AllSpace(p) && AllSpace(q)
    ensures s == p + TrimSpace(s) + q
  {
    var start := FirstNonSpace(s, 0);
    var stop := EndOfNonSpace(s, start, |s|);
    p, q := s[..start], s[stop..];
    assert s == s[..start] + s[start..stop] + s[stop..];
  }

  /** `x` is `core` with white space added on either side. */
  ghost predicate PaddingOf(x: string, core: string) {
    exists i, j :: 0 <= i <= j <= |x| && x[i..j] == core && AllSpace(x[..i]) && AllSpace(x[j..])
  }

  lemma AllSpaceConcat(a: string, b: string)
    requires AllSpace(a) && AllSpace(b)
    ensures AllSpace(a + b)
  {
  }

  lemma PaddingSplit(x: string, core: string) returns (before: string, after: string)
    requires PaddingOf(x, core)
    ensures AllSpace(before) && AllSpace(after)
    ensures x == before + core + after
  {
    var i, j :| 0 <= i <= j <= |x| && x[i..j] == core && AllSpace(x[..i]) && AllSpace(x[j..]);
    before, after := x[..i], x[j..];
    assert x == x[..i] + x[i..j] + x[j..];
  }

  lemma Regroup<T>(x: seq<T>, before: seq<T>, core: seq<T>, after: seq<T>, p: seq<T>, c: seq<T>, q: seq<T>)
    requires x == before + core + after && core == p + c + q
    ensures x == (before + p) + c + (q + after)
  {
  }

  /** Surrounding white space does not change what `TrimSpace` gives. */
  lemma TrimSpaceIgnoresPadding(before: string, core: string, after: string)
    requires AllSpace(before) && AllSpace(after)
    ensures TrimSpace(before + core + after) == TrimSpace(core)
  {
    var c := TrimSpace(core);
    var p, q := TrimSpaceSplit(core);
    AllSpaceConcat(before, p);
    AllSpaceConcat(q, after);
    Regroup(before + core + after, before, core, after, p, c, q);
    TrimSpaceOfPadded(before + p, c, q + after);
  }

  /** The same, for a string known only to be a padding of `core`. */
  lemma TrimSpaceOfPaddingOf(x: string, core: string)
    requires PaddingOf(x, core)
    ensures TrimSpace(x) == TrimSpace(core)
  {
    var before, after := PaddingSplit(x, core);
    TrimSpaceIgnoresPadding(before, core, after);
  }
}
