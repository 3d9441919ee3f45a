/** Sequence facts shared by the filters and counters of the model. */
module Seqs {
  /** `a` is `b` with some elements left out, order kept. */
  predicate IsSubsequence<T(==)>(a: seq<T>, b: seq<T>)
    decreases |b|
  {
    if |a| == 0 then true
    else if |b| == 0 then false
    else if a[0] == b[0] then IsSubsequence(a[1..], b[1..])
    else IsSubsequence(a, b[1..])
  }

  /** Skipping the head of `b` keeps a subsequence a subsequence. */
  lemma SubsequenceOfTail<T>(a: seq<T>, b: seq<T>)
    requires |b| > 0 && IsSubsequence(a, b[1..])
    ensures IsSubsequence(a, b)
    decreases |b|, 0
  {
    if |a| > 0 && a[0] == b[0] {
      SubsequenceDropHead(a, b[1..]);
    }
  }

  lemma SubsequenceDropHead<T>(a: seq<T>, c: seq<T>)
    requires |a| > 0 && IsSubsequence(a, c)
    ensures IsSubsequence(a[1..], c)
    decreases |c|, 1
  {
    if a[0] == c[0] {
      SubsequenceOfTail(a[1..], c);
    } else {
      SubsequenceDropHead(a, c[1..]);
      SubsequenceOfTail(a[1..], c);
    }
  }

  /** `after` is `before` followed by one element per entry of `tags`,
      the element for tag `j` satisfying `holds(_, j)`. */
  predicate AppendedBy<T(==)>(before: seq<T>, after: seq<T>, tags: seq<nat>, holds: (T, nat) -> bool) {
    && |after| == |before| + |tags| && after[..|before|] == before
    && forall k :: 0 <= k < |tags| ==> holds(after[|before| + k], tags[k])
  }

  /** One element appended for tag `i`, then the rest of the tags. */
  lemma AppendedByStep<T>(before: seq<T>, mid: seq<T>, after: seq<T>, i: nat, tags: seq<nat>,
                          holds: (T, nat) -> bool)
    requires |mid| == |before| + 1 && mid[..|before|] == before && holds(mid[|before|], i)
    requires AppendedBy(mid, after, tags, holds)
    ensures AppendedBy(before, after, [i] + tags, holds)
  {
    assert after[..|before|] == before by {
      assert after[..|mid|] == mid;
    }
    assert after[|before|] == after[..|mid|][|before|];
    forall k | 1 <= k < |tags| + 1 ensures holds(after[|before| + k], ([i] + tags)[k]) {
      assert ([i] + tags)[k] == tags[k - 1];
      assert |before| + k == |mid| + (k - 1);
    }
  }

  predicate Increasing(s: seq<nat>) {
    forall k, l :: 0 <= k < l < |s| ==> s[k] < s[l]
  }

  /** Putting a smaller index in front keeps the indices increasing. */
  lemma IncreasingCons(i: nat, s: seq<nat>)
    requires Increasing(s) && forall k :: 0 <= k < |s| ==> i < s[k]
    ensures Increasing([i] + s)
    ensures forall k :: 0 <= k < |[i] + s| ==> i <= ([i] + s)[k]
  {
    assert forall k :: 1 <= k < |s| + 1 ==> ([i] + s)[k] == s[k - 1];
  }

  /** How many elements of `s` satisfy `p`. */
  function CountWhere<T>(s: seq<T>, p: T -> bool): (n: nat)
    ensures n <= |s|
  {
    if |s| == 0 then 0 else (if p(s[0]) then 1 else 0) + CountWhere(s[1..], p)
  }

  lemma {:induction false} CountWhereAppend<T>(a: seq<T>, b: seq<T>, p: T -> bool)
    ensures CountWhere(a + b, p) == CountWhere(a, p) + CountWhere(b, p)
  {
    if |a| == 0 {
      assert a + b == b;
    } else {
      assert (a + b)[1..] == a[1..] + b;
      CountWhereAppend(a[1..], b, p);
    }
  }

  /** A count does not depend on the order of the rows. */
  lemma {:induction false} CountWherePermutation<T>(a: seq<T>, b: seq<T>, p: T -> bool)
    requires multiset(a) == multiset(b)
    ensures CountWhere(a, p) == CountWhere(b, p)
    decreases |a|
  {
    if |a| == 0 {
      assert |multiset(b)| == 0;
    } else {
      var x := a[0];
      assert x in multiset(a);
      assert x in multiset(b);
      var k :| 0 <= k < |b| && b[k] == x;
      var rest := b[..k] + b[k + 1..];
      assert b == b[..k] + [x] + b[k + 1..];
      assert a == [x] + a[1..];
      assert multiset(rest) == multiset(b) - multiset{x};
      assert multiset(a[1..]) == multiset(a) - multiset{x};
      CountWherePermutation(a[1..], rest, p);
      CountWhereAppend(b[..k] + [x], b[k + 1..], p);
      CountWhereAppend(b[..k], [x], p);
      CountWhereAppend(b[..k], b[k + 1..], p);
    }
  }
}
