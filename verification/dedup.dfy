/** The deduplication helpers of src/tools/search_tools.py and the
    title/recency filter of `search_recent_startups`. MD5 and difflib's
    matching-block count are parameters: nothing is assumed of them beyond
    what a lemma states in its own `requires`. */
module Dedup {
  import opened Options
  import opened Strings
  import opened JsonValues
  import opened Seqs

  // ---------------------------------------------------------------------
  // generate_hash
  // ---------------------------------------------------------------------

  /** `md5(...).hexdigest()` of the UTF-8 bytes of a string. */
  type Digest = string -> string

  /** `generate_hash(name, website, founded_date)`. */
  function GenerateHash(md5: Digest, name: string, website: string, foundedDate: string): string {
    md5(Lower(name) + Lower(website) + foundedDate)
  }

  /** Changing the case of the name or website does not change the hash. */
  lemma HashIgnoresCase(md5: Digest, n1: string, n2: string, w1: string, w2: string, date: string)
    requires Lower(n1) == Lower(n2) && Lower(w1) == Lower(w2)
    ensures GenerateHash(md5, n1, w1, date) == GenerateHash(md5, n2, w2, date)
  {
  }

  /** In particular a lower-cased name and website hash the same. */
  lemma HashOfLowered(md5: Digest, name: string, website: string, date: string)
    ensures GenerateHash(md5, Lower(name), Lower(website), date) == GenerateHash(md5, name, website, date)
  {
    LowerIdempotent(name);
    LowerIdempotent(website);
  }

  /** There is no separator between the fields: moving characters across
      the name/website boundary does not change the hash. */
  lemma {:induction false} HashHasNoSeparator(md5: Digest, a: string, b: string, c: string, date: string)
    ensures GenerateHash(md5, a + b, c, date) == GenerateHash(md5, a, b + c, date)
  {
    LowerAppend(a, b);
    LowerAppend(b, c);
    ConcatAssoc(Lower(a), Lower(b), Lower(c), date);
  }

  lemma ConcatAssoc(x: string, y: string, z: string, w: string)
    ensures (x + y) + z + w == x + (y + z) + w
  {
  }

  predicate IsHexDigit(c: char) {
    '0' <= c <= '9' || 'a' <= c <= 'f'
  }

  /** Given that a hex digest has 32 lower-case hex digits, so has every
      hash. */
  lemma HashIsHexDigest(md5: Digest, name: string, website: string, date: string)
    requires forall s :: |md5(s)| == 32 && forall i :: 0 <= i < |md5(s)| ==> IsHexDigit(md5(s)[i])
    ensures var h := GenerateHash(md5, name, website, date);
      |h| == 32 && forall i :: 0 <= i < |h| ==> IsHexDigit(h[i])
  {
  }

  // ---------------------------------------------------------------------
  // fuzzy_match
  // ---------------------------------------------------------------------

  /** The number of characters in difflib's matching blocks of two strings. */
  type MatchCount = (string, string) -> nat

  /** A threshold as the fraction `num / den`. */
  datatype Threshold = Threshold(num: nat, den: nat)

  predicate ValidThreshold(t: Threshold) {
    t.den > 0
  }

  /** `DEDUPLICATION_THRESHOLD = 0.85`. */
  const DefaultThreshold: Threshold := Threshold(85, 100)

  /** `SequenceMatcher(None, a, b).ratio() >= t`: the ratio is
      `2*M / (|a| + |b|)`, and 1 when both strings are empty. Compared
      without division. */
  predicate RatioAtLeast(m: nat, total: nat, t: Threshold) {
    if total == 0 then t.num <= t.den else t.num * total <= 2 * m * t.den
  }

  /** `fuzzy_match(a, b, threshold)`: compares the lower-cased strings. */
  predicate FuzzyMatch(matches: MatchCount, a: string, b: string, t: Threshold) {
    RatioAtLeast(matches(Lower(a), Lower(b)), |Lower(a)| + |Lower(b)|, t)
  }

  /** Case does not matter. */
  lemma FuzzyMatchIgnoresCase(matches: MatchCount, a: string, b: string, t: Threshold)
    ensures FuzzyMatch(matches, a, b, t) <==> FuzzyMatch(matches, Lower(a), Lower(b), t)
  {
    LowerIdempotent(a);
    LowerIdempotent(b);
  }

  /** A string matches itself at every threshold up to 1, given that a
      string's matching blocks against itself cover it. */
  lemma FuzzyMatchReflexive(matches: MatchCount, a: string, t: Threshold)
    requires ValidThreshold(t) && t.num <= t.den
    requires matches(Lower(a), Lower(a)) == |Lower(a)|
    ensures FuzzyMatch(matches, a, a, t)
  {
    var n := |Lower(a)|;
    MulMonotone(t.num, t.den, n + n);
    assert 2 * n * t.den == t.den * (n + n);
  }

  lemma MulMonotone(x: nat, y: nat, k: nat)
    requires x <= y
    ensures x * k <= y * k
  {
  }

  lemma MulSwap(x: int, y: int, k: int)
    ensures x * y * k == x * k * y
  {
  }

  /** Dividing both sides of `x*k <= y*k` by a positive `k`. */
  lemma MulCancel(x: nat, y: nat, k: nat)
    requires k > 0 && x * k <= y * k
    ensures x <= y
  {
    if x > y {
      MulMonotone(y + 1, x, k);
    }
  }

  /** The ratio comparison is monotone in the threshold. */
  lemma RatioMonotone(m: nat, total: nat, t: Threshold, u: Threshold)
    requires ValidThreshold(t) && ValidThreshold(u)
    requires u.num * t.den <= t.num * u.den
    requires RatioAtLeast(m, total, t)
    ensures RatioAtLeast(m, total, u)
  {
    if total == 0 {
      MulMonotone(t.num, t.den, u.den);
      assert u.num * t.den <= t.den * u.den;
      MulCancel(u.num, u.den, t.den);
    } else {
      var x, y := u.num * total, 2 * m * u.den;
      MulMonotone(u.num * t.den, t.num * u.den, total);
      MulMonotone(t.num * total, 2 * m * t.den, u.den);
      MulSwap(u.num, total, t.den);
      MulSwap(t.num, u.den, total);
      MulSwap(2 * m, t.den, u.den);
      MulCancel(x, y, t.den);
    }
  }

  /** A match at one threshold is a match at every lower threshold. */
  lemma FuzzyMatchMonotone(matches: MatchCount, a: string, b: string, t: Threshold, u: Threshold)
    requires ValidThreshold(t) && ValidThreshold(u)
    requires u.num * t.den <= t.num * u.den
    requires FuzzyMatch(matches, a, b, t)
    ensures FuzzyMatch(matches, a, b, u)
  {
    RatioMonotone(matches(Lower(a), Lower(b)), |Lower(a)| + |Lower(b)|, t, u);
  }

  /** "TechStartup" matches "Tech Startup" at 0.85 when difflib finds all
      eleven letters of the first in the second. */
  lemma TechStartupMatchesWithSpace(matches: MatchCount)
    requires matches("techstartup", "tech startup") == 11
    ensures FuzzyMatch(matches, "TechStartup", "Tech Startup", DefaultThreshold)
  {
    LowerTechStartup();
    LowerSpaced();
    assert RatioAtLeast(11, |"techstartup"| + |"tech startup"|, DefaultThreshold);
  }

  /** "TechStartup" against "Tech": with the four shared letters the ratio
      is 8/15, below 0.95 and above 0.30. */
  lemma TechStartupAgainstTech(matches: MatchCount)
    requires matches("techstartup", "tech") == 4
    ensures !FuzzyMatch(matches, "TechStartup", "Tech", Threshold(95, 100))
    ensures FuzzyMatch(matches, "TechStartup", "Tech", Threshold(30, 100))
  {
    LowerTechStartup();
    LowerTech();
    assert !RatioAtLeast(4, |"techstartup"| + |"tech"|, Threshold(95, 100));
    assert RatioAtLeast(4, |"techstartup"| + |"tech"|, Threshold(30, 100));
  }

  lemma LowerTechStartup()
    ensures Lower("TechStartup") == "techstartup"
  {
    LowerLiteral("TechStartup", "techstartup");
  }

  lemma LowerSpaced()
    ensures Lower("Tech Startup") == "tech startup"
  {
    LowerLiteral("Tech Startup", "tech startup");
  }

  lemma LowerTech()
    ensures Lower("Tech") == "tech"
  {
    LowerLiteral("Tech", "tech");
  }

  /** Lower-casing checked character by character. */
  lemma LowerLiteral(s: string, t: string)
    requires |s| == |t| && forall i :: 0 <= i < |s| ==> LowerChar(s[i]) == t[i]
    ensures Lower(s) == t
  {
  }

  // ---------------------------------------------------------------------
  // is_duplicate
  // ---------------------------------------------------------------------

  /** `existing.get('name', '')`; `None` when it is not a string, where
      `.lower()` would raise. */
  function NameText(existing: PyDict): Option<string> {
    match GetOr(existing, "name", JStr(""))
    case JStr(s) => Some(s)
    case _ => None
  }

  /** An entry whose name `.lower()` accepts. */
  predicate Readable(existing: PyDict) {
    NameText(existing).Some?
  }

  /** An entry whose name fuzzy-matches `name`. */
  predicate Hit(matches: MatchCount, name: string, existing: PyDict, t: Threshold) {
    Readable(existing) && FuzzyMatch(matches, name, NameText(existing).value, t)
  }

  /** `is_duplicate(name, existing)` at threshold `t`: stops at the first
      match; `None` is the exception raised by an entry whose name is not a
      string, reached before any match. */
  function IsDuplicate(matches: MatchCount, name: string, existing: seq<PyDict>, t: Threshold): (r: Option<bool>)
    ensures r == Some(true) ==> exists i :: (0 <= i < |existing| && NameText(existing[i]).Some? &&
      FuzzyMatch(matches, name, NameText(existing[i]).value, t))
    ensures r == Some(false) ==> forall i :: 0 <= i < |existing| ==> (NameText(existing[i]).Some? &&
      !FuzzyMatch(matches, name, NameText(existing[i]).value, t))
    ensures r.None? ==> exists i :: 0 <= i < |existing| && NameText(existing[i]).None?
    ensures r == Some(true) <==> exists i :: MatchReached(matches, name, existing, t, i)
    ensures r.None? <==> exists i :: FailureReached(matches, name, existing, t, i)
  {
    if |existing| == 0 then Some(false)
    else match NameText(existing[0])
      case None =>
        assert FailureReached(matches, name, existing, t, 0);
        assert forall i :: !MatchReached(matches, name, existing, t, i) by {
          forall i ensures !MatchReached(matches, name, existing, t, i) {
            if 0 < i < |existing| { assert !Readable(existing[0]); }
          }
        }
        None
      case Some(n) =>
        if FuzzyMatch(matches, name, n, t) then
          assert MatchReached(matches, name, existing, t, 0);
          assert forall i :: !FailureReached(matches, name, existing, t, i) by {
            forall i ensures !FailureReached(matches, name, existing, t, i) {
              if 0 < i < |existing| { assert Hit(matches, name, existing[0], t); }
            }
          }
          Some(true)
        else
          var r := IsDuplicate(matches, name, existing[1..], t);
          assert forall i :: 1 <= i < |existing| ==> existing[i] == existing[1..][i - 1];
          assert Readable(existing[0]) && !Hit(matches, name, existing[0], t);
          assert forall i :: MatchReached(matches, name, existing, t, i) ==>
            MatchReached(matches, name, existing[1..], t, i - 1) by {
            forall i | MatchReached(matches, name, existing, t, i)
              ensures MatchReached(matches, name, existing[1..], t, i - 1) {
              ReachedPastMiss(matches, name, existing, t, i - 1);
            }
          }
          assert forall i :: MatchReached(matches, name, existing[1..], t, i) ==>
            MatchReached(matches, name, existing, t, i + 1) by {
            forall i | MatchReached(matches, name, existing[1..], t, i)
              ensures MatchReached(matches, name, existing, t, i + 1) {
              ReachedPastMiss(matches, name, existing, t, i);
            }
          }
          assert forall i :: FailureReached(matches, name, existing, t, i) ==>
            FailureReached(matches, name, existing[1..], t, i - 1) by {
            forall i | FailureReached(matches, name, existing, t, i)
              ensures FailureReached(matches, name, existing[1..], t, i - 1) {
              ReachedPastMiss(matches, name, existing, t, i - 1);
            }
          }
          assert forall i :: FailureReached(matches, name, existing[1..], t, i) ==>
            FailureReached(matches, name, existing, t, i + 1) by {
            forall i | FailureReached(matches, name, existing[1..], t, i)
              ensures FailureReached(matches, name, existing, t, i + 1) {
              ReachedPastMiss(matches, name, existing, t, i);
            }
          }
          r
  }

  /** Entry `i` matches and every entry before it is readable: the loop
      reaches it and returns `True`. */
  predicate MatchReached(matches: MatchCount, name: string, existing: seq<PyDict>, t: Threshold, i: int) {
    0 <= i < |existing| && Hit(matches, name, existing[i], t) &&
    forall k :: 0 <= k < i ==> Readable(existing[k])
  }

  /** Entry `i` is unreadable and every entry before it is readable and
      does not match: the loop reaches it and raises. */
  predicate FailureReached(matches: MatchCount, name: string, existing: seq<PyDict>, t: Threshold, i: int) {
    0 <= i < |existing| && !Readable(existing[i]) &&
    forall k :: 0 <= k < i ==> Readable(existing[k]) && !Hit(matches, name, existing[k], t)
  }

  /** Past a readable entry that does not match, the entries reached are
      those of the rest, one position later. */
  lemma ReachedPastMiss(matches: MatchCount, name: string, existing: seq<PyDict>, t: Threshold, i: int)
    requires |existing| > 0 && Readable(existing[0]) && !Hit(matches, name, existing[0], t)
    ensures MatchReached(matches, name, existing, t, i + 1) <==> MatchReached(matches, name, existing[1..], t, i)
    ensures FailureReached(matches, name, existing, t, i + 1) <==> FailureReached(matches, name, existing[1..], t, i)
  {
    assert forall k :: 0 <= k < |existing| - 1 ==> existing[1..][k] == existing[k + 1];
  }

  /** Every entry has a string name, or none. */
  predicate WellFormed(existing: seq<PyDict>) {
    forall i :: 0 <= i < |existing| ==> NameText(existing[i]).Some?
  }

  /** On well-formed entries `is_duplicate` is the existential: some
      entry's name fuzzy-matches. */
  lemma IsDuplicateIsExists(matches: MatchCount, name: string, existing: seq<PyDict>, t: Threshold)
    requires WellFormed(existing)
    ensures IsDuplicate(matches, name, existing, t) ==
      Some(exists i :: 0 <= i < |existing| && FuzzyMatch(matches, name, NameText(existing[i]).value, t))
  {
  }

  lemma IsDuplicateEmpty(matches: MatchCount, name: string, t: Threshold)
    ensures IsDuplicate(matches, name, [], t) == Some(false)
  {
  }

  /** Reordering the entries does not change the answer. */
  lemma IsDuplicateOrderIndependent(matches: MatchCount, name: string, a: seq<PyDict>, b: seq<PyDict>, t: Threshold)
    requires WellFormed(a) && multiset(a) == multiset(b)
    ensures WellFormed(b)
    ensures IsDuplicate(matches, name, a, t) == IsDuplicate(matches, name, b, t)
  {
    forall i | 0 <= i < |b| ensures NameText(b[i]).Some? {
      assert b[i] in multiset(a);
    }
    IsDuplicateIsExists(matches, name, a, t);
    IsDuplicateIsExists(matches, name, b, t);
    if exists i :: 0 <= i < |a| && FuzzyMatch(matches, name, NameText(a[i]).value, t) {
      var i :| 0 <= i < |a| && FuzzyMatch(matches, name, NameText(a[i]).value, t);
      assert a[i] in multiset(b);
      var j :| 0 <= j < |b| && b[j] == a[i];
    }
    if exists j :: 0 <= j < |b| && FuzzyMatch(matches, name, NameText(b[j]).value, t) {
      var j :| 0 <= j < |b| && FuzzyMatch(matches, name, NameText(b[j]).value, t);
      assert b[j] in multiset(a);
      var i :| 0 <= i < |a| && a[i] == b[j];
    }
  }

  // ---------------------------------------------------------------------
  // The title/recency filter of search_recent_startups
  // ---------------------------------------------------------------------

  /** One search hit; every search backend fills all three fields. */
  datatype SearchResult = SearchResult(title: string, link: string, snippet: string)

  /** The current year and the English names of the current and previous
      month, read from the clock by the caller. */
  datatype Recency = Recency(year: int, month: string, previousMonth: string)

  /** The lower-cased snippet mentions the year or one of the months. */
  predicate Recent(r: SearchResult, when: Recency) {
    var s := Lower(r.snippet);
    Contains(s, IntToDecimal(when.year)) || Contains(s, Lower(when.month)) || Contains(s, Lower(when.previousMonth))
  }

  /** The set of titles of `rs`. */
  function Titles(rs: seq<SearchResult>): set<string> {
    if |rs| == 0 then {} else {rs[0].title} + Titles(rs[1..])
  }

  lemma {:induction false} TitlesMembers(rs: seq<SearchResult>, t: string)
    ensures t in Titles(rs) <==> exists r :: r in rs && r.title == t
  {
    if |rs| > 0 {
      TitlesMembers(rs[1..], t);
      assert forall r :: r in rs <==> r == rs[0] || r in rs[1..];
    }
  }

  /** The reference filter: scanning in order with the set of titles seen,
      a hit is kept iff its title is new and it is recent; only kept hits
      mark their title as seen. */
  function KeepRecent(rs: seq<SearchResult>, seen: set<string>, when: Recency): seq<SearchResult> {
    if |rs| == 0 then []
    else if rs[0].title !in seen && Recent(rs[0], when) then
      [rs[0]] + KeepRecent(rs[1..], seen + {rs[0].title}, when)
    else KeepRecent(rs[1..], seen, when)
  }

  /** Every kept hit is recent, comes from the input, and was not seen;
      kept titles are pairwise distinct; the input order is kept. */
  lemma {:induction false} KeepRecentSound(rs: seq<SearchResult>, seen: set<string>, when: Recency)
    ensures var kept := KeepRecent(rs, seen, when);
      && (forall r :: r in kept ==> r in rs && Recent(r, when) && r.title !in seen)
      && (forall i, j :: 0 <= i < j < |kept| ==> kept[i].title != kept[j].title)
      && IsSubsequence(kept, rs)
  {
    if |rs| > 0 {
      var r := rs[0];
      if r.title !in seen && Recent(r, when) {
        KeepRecentSound(rs[1..], seen + {r.title}, when);
        var rest := KeepRecent(rs[1..], seen + {r.title}, when);
        var kept := [r] + rest;
        assert kept[1..] == rest;
        forall i, j | 0 <= i < j < |kept| ensures kept[i].title != kept[j].title {
          if i == 0 {
            assert kept[j] in rest;
          } else {
            assert kept[i] == rest[i - 1] && kept[j] == rest[j - 1];
          }
        }
      } else {
        KeepRecentSound(rs[1..], seen, when);
        var kept := KeepRecent(rs[1..], seen, when);
        SubsequenceOfTail(kept, rs);
      }
    }
  }

  /** Every recent hit whose title was not seen before has its title kept:
      the filter drops only repeats and stale hits. */
  lemma {:induction false} KeepRecentComplete(rs: seq<SearchResult>, seen: set<string>, when: Recency, x: SearchResult)
    requires x in rs && Recent(x, when) && x.title !in seen
    ensures x.title in Titles(KeepRecent(rs, seen, when))
  {
    var r := rs[0];
    if r.title !in seen && Recent(r, when) {
      if x != r && x.title != r.title {
        KeepRecentComplete(rs[1..], seen + {r.title}, when, x);
      }
    } else {
      KeepRecentComplete(rs[1..], seen, when, x);
    }
  }

  /** Scanning `a` then `b` is scanning `a + b`: the second scan starts
      from the titles the first one kept. */
  lemma {:induction false} KeepRecentAppend(a: seq<SearchResult>, b: seq<SearchResult>, seen: set<string>, when: Recency)
    ensures KeepRecent(a + b, seen, when) ==
      KeepRecent(a, seen, when) + KeepRecent(b, seen + Titles(KeepRecent(a, seen, when)), when)
  {
    if |a| == 0 {
      assert a + b == b;
      assert KeepRecent(a, seen, when) == [];
      assert Titles([]) == {};
      assert seen + Titles(KeepRecent(a, seen, when)) == seen;
      assert KeepRecent(a, seen, when) + KeepRecent(b, seen, when) == KeepRecent(b, seen, when);
    } else {
      var r := a[0];
      assert (a + b)[0] == r && (a + b)[1..] == a[1..] + b;
      if r.title !in seen && Recent(r, when) {
        var s1 := seen + {r.title};
        KeepRecentAppend(a[1..], b, s1, when);
        var k := KeepRecent(a[1..], s1, when);
        assert KeepRecent(a, seen, when) == [r] + k;
        TitlesAppend([r], k);
        assert Titles([r]) == {r.title};
        assert s1 + Titles(k) == seen + Titles([r] + k);
        assert KeepRecent(a + b, seen, when) == [r] + KeepRecent(a[1..] + b, s1, when);
        assert [r] + (k + KeepRecent(b, s1 + Titles(k), when)) == ([r] + k) + KeepRecent(b, s1 + Titles(k), when);
      } else {
        KeepRecentAppend(a[1..], b, seen, when);
        assert KeepRecent(a + b, seen, when) == KeepRecent(a[1..] + b, seen, when);
      }
    }
  }

  /** The results of all queries, in query order. */
  function Flatten(batches: seq<seq<SearchResult>>): seq<SearchResult> {
    if |batches| == 0 then [] else Flatten(batches[..|batches| - 1]) + batches[|batches| - 1]
  }

  /** The inner loop: one query's results against the titles seen so far. */
  method FilterBatch(results: seq<SearchResult>, kept0: seq<SearchResult>, seen0: set<string>, when: Recency)
    returns (kept: seq<SearchResult>, seen: set<string>)
    requires seen0 == Titles(kept0)
    ensures kept == kept0 + KeepRecent(results, seen0, when)
    ensures seen == Titles(kept)
  {
    kept, seen := kept0, seen0;
    var i := 0;
    while i < |results|
      invariant 0 <= i <= |results|
      invariant kept == kept0 + KeepRecent(results[..i], seen0, when)
      invariant seen == seen0 + Titles(KeepRecent(results[..i], seen0, when))
    {
      var result := results[i];
      KeepRecentAppend(results[..i], [result], seen0, when);
      assert results[..i + 1] == results[..i] + [result];
      var before := KeepRecent(results[..i], seen0, when);
      assert KeepRecent([result], seen, when) == if result.title !in seen && Recent(result, when) then [result] else [];
      if result.title !in seen && Recent(result, when) {
        TitlesAppend(before, [result]);
        assert Titles([result]) == {result.title};
        kept := kept + [result];
        seen := seen + {result.title};
      } else {
        assert before + [] == before;
      }
      i := i + 1;
    }
    assert results[..i] == results;
    TitlesAppend(kept0, KeepRecent(results, seen0, when));
  }

  /** The filter loop over the results of every query, sharing one set of
      seen titles: the same as one scan of all results. */
  method FilterRecent(batches: seq<seq<SearchResult>>, when: Recency) returns (kept: seq<SearchResult>, seen: set<string>)
    ensures kept == KeepRecent(Flatten(batches), {}, when)
    ensures seen == Titles(kept)
  {
    kept, seen := [], {};
    var q := 0;
    while q < |batches|
      invariant 0 <= q <= |batches|
      invariant kept == KeepRecent(Flatten(batches[..q]), {}, when)
      invariant seen == Titles(kept)
    {
      assert batches[..q + 1][..q] == batches[..q];
      KeepRecentAppend(Flatten(batches[..q]), batches[q], {}, when);
      assert {} + Titles(kept) == seen;
      kept, seen := FilterBatch(batches[q], kept, seen, when);
      q := q + 1;
    }
    assert batches[..q] == batches;
  }

  lemma {:induction false} TitlesAppend(a: seq<SearchResult>, b: seq<SearchResult>)
    ensures Titles(a + b) == Titles(a) + Titles(b)
  {
    if |a| > 0 {
      assert (a + b)[1..] == a[1..] + b;
      TitlesAppend(a[1..], b);
    } else {
      assert a + b == b;
    }
  }
}
