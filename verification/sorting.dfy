/** `ORDER BY <key> DESC [LIMIT k]` over stored rows. SQLite leaves the
    order of tied rows unspecified; this insertion sort fixes one, and the
    contracts promise only what SQLite promises: a permutation in
    non-increasing key order. */
module Sorting {
  import opened SqlValues

  /** Non-increasing in `key`. */
  ghost predicate SortedDesc<T>(s: seq<T>, key: T -> Cell) {
    forall i, j :: 0 <= i < j < |s| ==> CellLe(key(s[j]), key(s[i]))
  }

  /** Places `x` among the sorted `s`. */
  function InsertDesc<T(==)>(x: T, s: seq<T>, key: T -> Cell): (r: seq<T>)
    requires SortedDesc(s, key)
    ensures multiset(r) == multiset(s) + multiset{x}
    ensures SortedDesc(r, key)
  {
    if |s| == 0 then [x]
    else if CellLe(key(s[0]), key(x)) then
      InsertFrontKeepsOrder(x, s, key);
      [x] + s
    else
      var rest := InsertDesc(x, s[1..], key);
      InsertBehindKeepsOrder(x, s, rest, key);
      [s[0]] + rest
  }

  lemma InsertFrontKeepsOrder<T>(x: T, s: seq<T>, key: T -> Cell)
    requires SortedDesc(s, key) && |s| > 0 && CellLe(key(s[0]), key(x))
    ensures SortedDesc([x] + s, key)
  {
    var r := [x] + s;
    forall i, j | 0 <= i < j < |r| ensures CellLe(key(r[j]), key(r[i])) {
      if i == 0 && j > 1 {
        CellLeTrans(key(s[j - 1]), key(s[0]), key(x));
      }
    }
  }

  lemma InsertBehindKeepsOrder<T>(x: T, s: seq<T>, rest: seq<T>, key: T -> Cell)
    requires SortedDesc(s, key) && |s| > 0 && !CellLe(key(s[0]), key(x))
    requires SortedDesc(rest, key) && multiset(rest) == multiset(s[1..]) + multiset{x}
    ensures SortedDesc([s[0]] + rest, key)
    ensures multiset([s[0]] + rest) == multiset(s) + multiset{x}
  {
    assert s == [s[0]] + s[1..];
    var r := [s[0]] + rest;
    forall i, j | 0 <= i < j < |r| ensures CellLe(key(r[j]), key(r[i])) {
      if i == 0 {
        var y := rest[j - 1];
        assert y in multiset(rest);
        if y == x {
          CellLeTotal(key(s[0]), key(x));
        } else {
          assert y in multiset(s[1..]);
          var k :| 0 <= k < |s[1..]| && s[1..][k] == y;
          assert s[k + 1] == y;
        }
      }
    }
  }

  /** `ORDER BY key DESC`: a permutation of `s`, non-increasing in `key`. */
  function SortDesc<T(==)>(s: seq<T>, key: T -> Cell): (r: seq<T>)
    ensures multiset(r) == multiset(s)
    ensures SortedDesc(r, key)
  {
    if |s| == 0 then []
    else
      assert s == [s[0]] + s[1..];
      InsertDesc(s[0], SortDesc(s[1..], key), key)
  }

  /** `LIMIT k`; SQLite treats a negative limit as no limit. */
  function Limit<T>(s: seq<T>, k: int): (r: seq<T>)
    ensures k < 0 ==> r == s
    ensures k >= 0 ==> |r| == if k < |s| then k else |s|
    ensures r == s[..|r|]
  {
    if k < 0 || k >= |s| then s else s[..k]
  }

  /** The first `k` of a non-increasing sequence: at most `k` elements,
      still non-increasing, and every element left out sorts no higher
      than the last one kept. */
  lemma TopKeepsLargest<T>(sorted: seq<T>, k: int, key: T -> Cell)
    requires SortedDesc(sorted, key) && k >= 0
    ensures var r := Limit(sorted, k);
      && |r| <= k
      && SortedDesc(r, key)
      && (|r| > 0 ==> forall x :: x in multiset(sorted) - multiset(r) ==> CellLe(key(x), key(r[|r| - 1])))
  {
    var r := Limit(sorted, k);
    if |r| > 0 {
      assert sorted == r + sorted[|r|..];
      forall x | x in multiset(sorted) - multiset(r)
        ensures CellLe(key(x), key(r[|r| - 1]))
      {
        assert x in multiset(sorted[|r|..]);
        var j :| 0 <= j < |sorted[|r|..]| && sorted[|r|..][j] == x;
        assert sorted[|r| + j] == x;
      }
    }
  }

  /** `ORDER BY key DESC LIMIT k`: a sub-multiset of `s` of length
      `min(k, |s|)` (all of `s` for a negative `k`), non-increasing, and no
      element left out sorts above the last one kept. */
  function TopBy<T(==)>(s: seq<T>, key: T -> Cell, k: int): (r: seq<T>)
    ensures multiset(r) <= multiset(s)
    ensures SortedDesc(r, key)
    ensures k >= 0 ==> |r| == if k < |s| then k else |s|
    ensures k < 0 ==> |r| == |s|
    ensures |r| > 0 ==> forall x :: x in multiset(s) - multiset(r) ==> CellLe(key(x), key(r[|r| - 1]))
  {
    var sorted := SortDesc(s, key);
    var r := Limit(sorted, k);
    assert sorted == r + sorted[|r|..];
    assert multiset(sorted) == multiset(r) + multiset(sorted[|r|..]);
    if k >= 0 then
      TopKeepsLargest(sorted, k, key);
      r
    else
      r
  }
}
