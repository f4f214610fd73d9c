/** The two JavaScript string operations the extension relies on:
    `String.prototype.trim` and `String.prototype.includes`. */
module Text {

  /** ECMAScript WhiteSpace and LineTerminator code points, the set `trim` strips.
      None of the lemmas below depend on which characters are in the set. */
  predicate IsWhitespace(c: char) {
    c == '\t' || c == '\n' || c == '\U{000B}' || c == '\U{000C}' || c == '\r' || c == ' '
    || c == '\U{00A0}' || c == '\U{1680}' || ('\U{2000}' <= c <= '\U{200A}')
    || c == '\U{2028}' || c == '\U{2029}' || c == '\U{202F}' || c == '\U{205F}'
    || c == '\U{3000}' || c == '\U{FEFF}'
  }

  predicate AllWhitespace(s: string) {
    forall i | 0 <= i < |s| :: IsWhitespace(s[i])
  }

  /** Neither end of `s` is whitespace (trivially so for the empty string). */
  predicate IsTrimmed(s: string) {
    s == [] || (!IsWhitespace(s[0]) && !IsWhitespace(s[|s| - 1]))
  }

  /** Index of the first non-whitespace character at or after `from` (or |s|). */
  function LeadingEnd(s: string, from: nat): (k: nat)
    requires from <= |s|
    ensures from <= k <= |s|
    ensures forall i | from <= i < k :: IsWhitespace(s[i])
    ensures k == |s| || !IsWhitespace(s[k])
    decreases |s| - from
  {
    if from < |s| && IsWhitespace(s[from]) then LeadingEnd(s, from + 1) else from
  }

  /** Going down from `upto` but not below `lo`: the index just past the last
      non-whitespace character (or `lo`). */
  function TrailingStart(s: string, lo: nat, upto: nat): (k: nat)
    requires lo <= upto <= |s|
    ensures lo <= k <= upto
    ensures forall i | k <= i < upto :: IsWhitespace(s[i])
    ensures k == lo || !IsWhitespace(s[k - 1])
    decreases upto
  {
    if upto > lo && IsWhitespace(s[upto - 1]) then TrailingStart(s, lo, upto - 1) else upto
  }

  /** `s.trim()`: strip leading, then trailing whitespace. */
  function Trim(s: string): (r: string)
    ensures IsTrimmed(r)
    ensures |r| <= |s|
  {
    var a := LeadingEnd(s, 0);
    s[a..TrailingStart(s, a, |s|)]
  }

  /** What `trim` removed is whitespace on both sides of a contiguous slice. */
  lemma TrimSlice(s: string) returns (a: nat, b: nat)
    ensures a <= b <= |s| && Trim(s) == s[a..b]
    ensures forall i | 0 <= i < a :: IsWhitespace(s[i])
    ensures forall i | b <= i < |s| :: IsWhitespace(s[i])
  {
    a := LeadingEnd(s, 0);
    b := TrailingStart(s, a, |s|);
  }

  /** Trimming a string whose ends are not whitespace changes nothing. */
  lemma TrimOfTrimmed(s: string)
    requires IsTrimmed(s)
    ensures Trim(s) == s
  {
    var a, b := TrimSlice(s);
    if s != [] {
      assert a == 0;
      assert b == |s|;
    }
  }

  lemma TrimIdempotent(s: string)
    ensures Trim(Trim(s)) == Trim(s)
  {
    TrimOfTrimmed(Trim(s));
  }

  /** `s.trim()` is empty (falsy) exactly when `s` is all whitespace. */
  lemma TrimEmptyIff(s: string)
    ensures Trim(s) == [] <==> AllWhitespace(s)
  {
    var a, b := TrimSlice(s);
    if a < b {
      assert !IsWhitespace(Trim(s)[0]);
      assert Trim(s)[0] == s[a];
    }
  }

  /** `p` occurs in `s` starting at index `i`. */
  predicate OccursAt(s: string, p: string, i: int) {
    0 <= i && i + |p| <= |s| && s[i..i + |p|] == p
  }

  /** `s.includes(p)`. */
  predicate Contains(s: string, p: string) {
    exists i | 0 <= i <= |s| - |p| :: OccursAt(s, p, i)
  }

  lemma ContainsSuffix(s: string, p: string)
    ensures Contains(s + p, p)
  {
    assert (s + p)[|s|..|s| + |p|] == p;
    assert OccursAt(s + p, p, |s|);
  }

  lemma SliceOfSlice(s: string, a: nat, b: nat, i: nat, j: nat)
    requires a <= b <= |s| && i <= j <= b - a
    ensures s[a..b][i..j] == s[a + i..a + j]
  {
    assert forall k | 0 <= k < j - i :: s[a..b][i..j][k] == s[a + i + k];
  }

  /** A pattern with no whitespace at its ends occurs in `s` exactly when it
      occurs in `s.trim()`: the stripped ends cannot hold any of it. */
  lemma ContainsTrimIff(s: string, p: string)
    requires p != [] && IsTrimmed(p)
    ensures Contains(Trim(s), p) <==> Contains(s, p)
  {
    var a, b := TrimSlice(s);
    var t := Trim(s);
    if Contains(t, p) {
      var i :| 0 <= i <= |t| - |p| && OccursAt(t, p, i);
      SliceOfSlice(s, a, b, i, i + |p|);
      assert OccursAt(s, p, a + i);
    }
    if Contains(s, p) {
      var i :| 0 <= i <= |s| - |p| && OccursAt(s, p, i);
      assert s[i] == p[0];
      assert s[i + |p| - 1] == p[|p| - 1];
      assert a <= i;
      assert i + |p| <= b;
      SliceOfSlice(s, a, b, i - a, i - a + |p|);
      assert OccursAt(t, p, i - a);
    }
  }
}
