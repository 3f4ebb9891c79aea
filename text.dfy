/**
 * String helpers with the meaning .NET gives them in the source:
 * `string.Contains` is an ordinal (case-sensitive) substring test and
 * `ToUpper` is taken as ASCII upper-casing.
 */
module Text {

  /** `p` is a prefix of `s`. */
  predicate IsPrefix(p: string, s: string) {
    |p| <= |s| && s[..|p|] == p
  }

  /** Ordinal `s.Contains(p)`: some suffix of `s` starts with `p`. */
  predicate Contains(s: string, p: string)
    decreases |s|
  {
    IsPrefix(p, s) || (|s| > 0 && Contains(s[1..], p))
  }

  /** Reference definition: `p` occurs in `s` at index `i`. */
  ghost predicate OccursAt(s: string, p: string, i: int) {
    0 <= i && i + |p| <= |s| && s[i..i + |p|] == p
  }

  lemma {:induction false} OccursAtContains(s: string, p: string, i: int)
    requires OccursAt(s, p, i)
    ensures Contains(s, p)
    decreases i
  {
    if i == 0 {
      assert IsPrefix(p, s);
    } else {
      assert s[1..][i - 1..i - 1 + |p|] == s[i..i + |p|];
      OccursAtContains(s[1..], p, i - 1);
    }
  }

  lemma {:induction false} ContainsOccurs(s: string, p: string) returns (i: int)
    requires Contains(s, p)
    ensures OccursAt(s, p, i)
    decreases |s|
  {
    if IsPrefix(p, s) {
      i := 0;
    } else {
      var j := ContainsOccurs(s[1..], p);
      assert s[1..][j..j + |p|] == s[j + 1..j + 1 + |p|];
      i := j + 1;
    }
  }

  /** `Contains` agrees with the occurrence-based definition. */
  lemma ContainsIffOccurs(s: string, p: string)
    ensures Contains(s, p) <==> exists i :: OccursAt(s, p, i)
  {
    if Contains(s, p) {
      var i := ContainsOccurs(s, p);
    }
    if exists i :: OccursAt(s, p, i) {
      var i :| OccursAt(s, p, i);
      OccursAtContains(s, p, i);
    }
  }

  /** A marker found in `m` is found in `pre + m`. */
  lemma ContainsInSuffix(pre: string, m: string, p: string)
    requires Contains(m, p)
    ensures Contains(pre + m, p)
  {
    var i := ContainsOccurs(m, p);
    assert (pre + m)[|pre| + i..|pre| + i + |p|] == m[i..i + |p|];
    OccursAtContains(pre + m, p, |pre| + i);
  }

  /**
   * A marker `p` cannot straddle a prefix `pre` whose first two characters do not
   * start `p` and whose later characters are never `p`'s first: then `pre + m`
   * contains `p` exactly when `m` does.
   */
  lemma ContainsAfterPrefix(pre: string, m: string, p: string)
    requires |pre| >= 2 && |p| >= 2
    requires pre[0] != p[0] || pre[1] != p[1]
    requires forall k :: 1 <= k < |pre| ==> pre[k] != p[0]
    ensures Contains(pre + m, p) <==> Contains(m, p)
  {
    if Contains(pre + m, p) {
      var i := ContainsOccurs(pre + m, p);
      assert (pre + m)[i] == p[0];
      assert i >= |pre|;
      assert m[i - |pre|..i - |pre| + |p|] == (pre + m)[i..i + |p|];
      OccursAtContains(m, p, i - |pre|);
    }
    if Contains(m, p) {
      ContainsInSuffix(pre, m, p);
    }
  }

  /** A pattern one of whose characters never occurs in `s` is not contained in `s`. */
  lemma {:induction false} AbsentChar(s: string, p: string, k: int)
    requires 0 <= k < |p|
    requires forall i :: 0 <= i < |s| ==> s[i] != p[k]
    ensures !Contains(s, p)
    decreases |s|
  {
    if |p| <= |s| {
      assert s[..|p|][k] == s[k];
    }
    if |s| > 0 {
      AbsentChar(s[1..], p, k);
    }
  }

  /** ASCII upper-casing of one character. */
  function UpperChar(c: char): char {
    if 'a' <= c <= 'z' then (c as int - 32) as char else c
  }

  /** Character-wise ASCII upper-casing (the model of `string.ToUpper`). */
  function ToUpper(s: string): (r: string)
    ensures |r| == |s|
    ensures forall i :: 0 <= i < |s| ==> r[i] == UpperChar(s[i])
  {
    if s == [] then [] else [UpperChar(s[0])] + ToUpper(s[1..])
  }

  /** Upper-casing leaves no lower-case ASCII letter and is idempotent. */
  lemma ToUpperIdempotent(s: string)
    ensures forall i :: 0 <= i < |s| ==> !('a' <= ToUpper(s)[i] <= 'z')
    ensures ToUpper(ToUpper(s)) == ToUpper(s)
  {
  }
}
