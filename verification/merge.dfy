/** The streaming merge: the next snapshot of a growing text may repeat, extend or overlap what is already shown. */
module StreamingMerge {

  // ----- Containment -----

  /** `part` stands contiguously in `whole` at `i`. */
  predicate StandsAt(whole: string, part: string, i: nat) {
    i + |part| <= |whole| && whole[i..i + |part|] == part
  }

  predicate Contains(whole: string, part: string) {
    exists i: nat | i <= |whole| :: StandsAt(whole, part, i)
  }

  predicate HasSuffix(whole: string, part: string) {
    |part| <= |whole| && whole[|whole| - |part|..] == part
  }

  lemma ContainsAt(whole: string, part: string, i: nat)
    requires StandsAt(whole, part, i)
    ensures Contains(whole, part)
  {}

  lemma ContainsTransitive(a: string, b: string, c: string)
    requires Contains(a, b) && Contains(b, c)
    ensures Contains(a, c)
  {
    var i: nat :| i <= |a| && StandsAt(a, b, i);
    var j: nat :| j <= |b| && StandsAt(b, c, j);
    forall k | 0 <= k < |c|
      ensures a[i + j + k] == c[k]
    {
      assert a[i..i + |b|][j + k] == b[j + k] == b[j..j + |c|][k];
    }
    assert a[i + j..i + j + |c|] == c;
    ContainsAt(a, c, i + j);
  }

  lemma ContainsAntisymmetric(a: string, b: string)
    requires Contains(a, b) && |a| <= |b|
    ensures a == b
  {
    var i: nat :| i <= |a| && StandsAt(a, b, i);
    assert a[0..|a|] == a;
  }

  // ----- The overlap -----

  /** The last `k` characters of `p` are the first `k` of `n`. */
  predicate Overlaps(p: string, n: string, k: nat) {
    k <= |p| && k <= |n| && p[|p| - k..] == n[..k]
  }

  /** The longest overlap of at most `k` characters. */
  function OverlapUpTo(p: string, n: string, k: nat): (r: nat)
    requires k <= |p| && k <= |n|
    ensures r <= k && Overlaps(p, n, r)
    ensures forall j :: r < j <= k ==> !Overlaps(p, n, j)
  {
    if k == 0 then
      assert p[|p|..] == n[..0];
      0
    else if Overlaps(p, n, k) then k
    else OverlapUpTo(p, n, k - 1)
  }

  function MaxOverlap(p: string, n: string): nat {
    OverlapUpTo(p, n, if |p| < |n| then |p| else |n|)
  }

  // ----- The merge -----

  function Merge(p: string, n: string): string {
    if Contains(n, p) then n
    else if Contains(p, n) then p
    else p + n[MaxOverlap(p, n)..]
  }

  method MergeStreamingText(previous: string, next: string) returns (r: string)
    ensures r == Merge(previous, next)
  {
    if next == "" {
      ContainsAt(previous, next, 0);
      assert Contains(next, previous) ==> previous == "";
      return previous;
    }
    if previous == "" || next == previous {
      assert next[0..|next|] == next;
      ContainsAt(next, previous, 0);
      return next;
    }
    if previous <= next {
      ContainsAt(next, previous, 0);
      return next;
    }
    if next <= previous {
      ContainsAt(previous, next, 0);
      if Contains(next, previous) {
        ContainsAntisymmetric(next, previous);
      }
      return previous;
    }
    if Contains(next, previous) {
      return next;
    }
    if Contains(previous, next) {
      return previous;
    }
    var maxOverlap := if |previous| < |next| then |previous| else |next|;
    var overlap := maxOverlap;
    while overlap > 0
      invariant 0 <= overlap <= maxOverlap
      invariant OverlapUpTo(previous, next, overlap) == MaxOverlap(previous, next)
    {
      if previous[|previous| - overlap..] == next[..overlap] {
        return previous + next[overlap..];
      }
      overlap := overlap - 1;
    }
    return previous + next;
  }

  // ----- What the merge means -----

  lemma MergeHasPrefix(p: string, n: string)
    requires !Contains(n, p) && !Contains(p, n)
    ensures p <= Merge(p, n) && HasSuffix(Merge(p, n), n)
  {
    var k := MaxOverlap(p, n);
    var m := p + n[k..];
    assert n == n[..k] + n[k..];
    assert m[|m| - |n|..] == p[|p| - k..] + n[k..];
  }

  lemma ContainsItself(m: string)
    ensures Contains(m, m)
  {
    assert m[0..|m|] == m;
    ContainsAt(m, m, 0);
  }

  lemma ContainsEnds(m: string, p: string, n: string)
    requires p <= m && HasSuffix(m, n)
    ensures Contains(m, p) && Contains(m, n)
  {
    ContainsAt(m, p, 0);
    assert m[|m| - |n|..|m|] == n;
    ContainsAt(m, n, |m| - |n|);
  }

  /** Nothing is lost: the merge contains both texts, and nothing else when one contains the other. */
  lemma MergeContainsBoth(p: string, n: string)
    ensures Contains(Merge(p, n), p) && Contains(Merge(p, n), n)
  {
    ContainsItself(Merge(p, n));
    if !Contains(n, p) && !Contains(p, n) {
      MergeHasPrefix(p, n);
      ContainsEnds(Merge(p, n), p, n);
    }
  }

  /** Nothing is repeated: of all texts that start with `p` and end with `n` the merge is the shortest, and the only
      one of its length. */
  lemma MergeIsShortest(p: string, n: string, t: string)
    requires !Contains(n, p) && !Contains(p, n)
    requires p <= t && HasSuffix(t, n)
    ensures |Merge(p, n)| <= |t|
    ensures |Merge(p, n)| == |t| ==> t == Merge(p, n)
  {
    var k := |p| + |n| - |t|;
    var o := MaxOverlap(p, n);
    if k > 0 {
      assert p[|p| - k..] == t[|t| - |n|..|p|] == n[..k];
      assert Overlaps(p, n, k);
    }
    if |Merge(p, n)| == |t| {
      assert k == o;
      assert t == t[..|p|] + t[|p|..];
      assert t[|p|..] == t[|t| - |n|..][o..];
    }
  }

  /** Repeating either of the two texts changes nothing. */
  lemma MergeAbsorbs(p: string, n: string)
    ensures Merge(Merge(p, n), p) == Merge(p, n) == Merge(Merge(p, n), n)
  {
    var m := Merge(p, n);
    MergeContainsBoth(p, n);
    if Contains(p, m) {
      ContainsSameLength(m, p);
    }
    if Contains(n, m) {
      ContainsSameLength(m, n);
    }
  }

  lemma ContainsSameLength(a: string, b: string)
    requires Contains(a, b) && Contains(b, a)
    ensures a == b
  {
    ContainsAntisymmetric(if |a| <= |b| then a else b, if |a| <= |b| then b else a);
  }

  /** The merge of a growing text with its next snapshot is the snapshot. */
  lemma MergeGrowth(p: string, n: string)
    requires p <= n
    ensures Merge(p, n) == n
  {
    ContainsAt(n, p, 0);
  }

  /** The merge is the next text exactly when that contains the previous one, anywhere, and the previous text exactly
      when that contains the next one. */
  lemma MergeIsEitherIff(p: string, n: string)
    ensures Merge(p, n) == n <==> Contains(n, p)
    ensures Merge(p, n) == p <==> Contains(p, n)
  {
    MergeContainsBoth(p, n);
    if Contains(n, p) && Contains(p, n) {
      ContainsSameLength(p, n);
    }
  }
}
