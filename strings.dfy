/** Substring containment, the one string operation every suite predicate is
    built from (Go's strings.Contains: exact, case-sensitive, byte-for-byte). */
module Strings {

  /** Go's `\d` in a regular expression: an ASCII decimal digit. */
  predicate IsAsciiDigit(c: char) {
    '0' <= c <= '9'
  }

  /** The character class `[a-zA-Z0-9]`. */
  predicate IsAsciiAlnum(c: char) {
    'a' <= c <= 'z' || 'A' <= c <= 'Z' || IsAsciiDigit(c)
  }

  predicate AllDigits(s: string) {
    forall i :: 0 <= i < |s| ==> IsAsciiDigit(s[i])
  }

  predicate AllAlnum(s: string) {
    forall i :: 0 <= i < |s| ==> IsAsciiAlnum(s[i])
  }

  /** `sub` occurs in `s` starting at offset `i`. */
  predicate OccursAt(s: string, sub: string, i: nat) {
    i + |sub| <= |s| && s[i..i + |sub|] == sub
  }

  /** strings.Contains(s, sub): some offset of `s` starts a copy of `sub`. */
  predicate Contains(s: string, sub: string) {
    exists i: nat :: i <= |s| - |sub| && OccursAt(s, sub, i)
  }

  /** A known occurrence is enough to conclude containment. */
  lemma OccurrenceContains(s: string, sub: string, i: nat)
    requires OccursAt(s, sub, i)
    ensures Contains(s, sub)
  {
  }

  /** A string contains each of the pieces it is built from. */
  lemma ContainsPiece(a: string, b: string, c: string)
    ensures Contains(a + b + c, b)
  {
    var s := a + b + c;
    assert s[|a|..|a| + |b|] == b;
    OccurrenceContains(s, b, |a|);
  }

  /** A prefix of `s` is contained in `s`. */
  lemma PrefixContained(s: string, p: string)
    requires |p| <= |s| && s[..|p|] == p
    ensures Contains(s, p)
  {
    OccurrenceContains(s, p, 0);
  }

  /** Containment is transitive: a tag that embeds another tag carries it along. */
  lemma ContainsTransitive(s: string, t: string, u: string)
    requires Contains(s, t) && Contains(t, u)
    ensures Contains(s, u)
  {
    var i: nat :| i <= |s| - |t| && OccursAt(s, t, i);
    var j: nat :| j <= |t| - |u| && OccursAt(t, u, j);
    forall k | 0 <= k < |u|
      ensures s[i + j + k] == u[k]
    {
      assert s[i + j + k] == s[i..i + |t|][j + k];
      assert u[k] == t[j..j + |u|][k];
    }
    assert s[i + j..i + j + |u|] == u;
    OccurrenceContains(s, u, i + j);
  }

  /** If one character of `sub` appears nowhere in `s`, then `s` does not contain `sub`. */
  lemma MissingCharNotContained(s: string, sub: string, k: nat)
    requires k < |sub|
    requires forall i :: 0 <= i < |s| ==> s[i] != sub[k]
    ensures !Contains(s, sub)
  {
    forall i: nat | i <= |s| - |sub|
      ensures !OccursAt(s, sub, i)
    {
      assert s[i..i + |sub|][k] == s[i + k];
    }
  }

  /** A string shorter than `sub` cannot contain it. */
  lemma ShorterNotContained(s: string, sub: string)
    requires |s| < |sub|
    ensures !Contains(s, sub)
  {
  }
}
