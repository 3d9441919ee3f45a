/** The read-only query helpers of src/utils/db_queries.py
    (`DatabaseQueries`): every query turns any error into an empty
    result. */
module Queries {
  import opened Options
  import opened Strings
  import opened SqlValues
  import opened Sorting
  import opened Seqs
  import DB = Database

  /** `get_all_startups`: the same query as db.py's. */
  function GetAllStartups(db: DB.Backend): (r: seq<DB.StartupRow>)
    ensures multiset(r) == multiset(DB.StartupRows(db))
    ensures SortedDesc(r, DB.CreatedKey)
  {
    DB.GetAllStartups(db)
  }

  /** `get_startups_by_tier`: the same query as db.py's. */
  function GetStartupsByTier(db: DB.Backend, tier: string): (r: seq<DB.StartupRow>)
    ensures forall x :: x in r <==> x in DB.StartupRows(db) && x.primaryTier == Text(tier)
    ensures forall x :: x in r ==> multiset(r)[x] == multiset(DB.StartupRows(db))[x]
    ensures SortedDesc(r, DB.ScoreKey)
  {
    DB.GetStartupsByTier(db, tier)
  }

  /** `get_top_startups(limit)`: `ORDER BY india_fit_score DESC LIMIT ?`.
      A limit that does not fit 64 bits cannot be bound, and the error is
      turned into the empty result. */
  function GetTopStartups(db: DB.Backend, limit: int): (r: seq<DB.StartupRow>)
    ensures multiset(r) <= multiset(DB.StartupRows(db))
    ensures SortedDesc(r, DB.ScoreKey)
    ensures !InInt64(limit) ==> r == []
    ensures InInt64(limit) && limit >= 0 ==> |r| == if limit < |DB.StartupRows(db)| then limit else |DB.StartupRows(db)|
    ensures InInt64(limit) && limit < 0 ==> |r| == |DB.StartupRows(db)|
    ensures |r| > 0 ==> forall x :: x in multiset(DB.StartupRows(db)) - multiset(r) ==>
      CellLe(DB.ScoreKey(x), DB.ScoreKey(r[|r| - 1]))
  {
    if !InInt64(limit) then [] else TopBy(DB.StartupRows(db), DB.ScoreKey, limit)
  }

  /** The text SQLite matches a LIKE pattern against: a number is read as
      its decimal text, NULL matches nothing. */
  function CategoryText(c: Cell): Option<string> {
    match c
    case Null => None
    case Int(i) => Some(IntToDecimal(i))
    case Text(s) => Some(s)
  }

  predicate CategoryLike(c: Cell, pattern: string) {
    CategoryText(c).Some? && Like(pattern, CategoryText(c).value)
  }

  /** The rows whose category matches the pattern, in table order. */
  function RowsLike(rows: seq<DB.StartupRow>, pattern: string): (r: seq<DB.StartupRow>)
    ensures forall x :: x in r <==> x in rows && CategoryLike(x.category, pattern)
    ensures forall x :: x in r ==> multiset(r)[x] == multiset(rows)[x]
  {
    if |rows| == 0 then []
    else
      assert rows == [rows[0]] + rows[1..];
      (if CategoryLike(rows[0].category, pattern) then [rows[0]] else []) + RowsLike(rows[1..], pattern)
  }

  /** `get_startups_by_category(c)`: `WHERE category LIKE '%c%' ORDER BY
      india_fit_score DESC`. */
  function GetStartupsByCategory(db: DB.Backend, category: string): (r: seq<DB.StartupRow>)
    ensures forall x :: x in r <==> x in DB.StartupRows(db) && CategoryLike(x.category, "%" + category + "%")
    ensures forall x :: x in r ==> multiset(r)[x] == multiset(DB.StartupRows(db))[x]
    ensures SortedDesc(r, DB.ScoreKey)
  {
    var sel := RowsLike(DB.StartupRows(db), "%" + category + "%");
    var r := SortDesc(sel, DB.ScoreKey);
    assert forall x :: x in r <==> x in multiset(sel);
    r
  }

  /** For a category without `%` or `_`, the query selects exactly the rows
      whose category contains it, ignoring ASCII case. */
  lemma CategoryIsSubstringSearch(db: DB.Backend, category: string, x: DB.StartupRow)
    requires NoWildcards(category)
    ensures x in GetStartupsByCategory(db, category) <==>
      && x in DB.StartupRows(db)
      && CategoryText(x.category).Some?
      && ContainsIgnoringCase(CategoryText(x.category).value, category)
  {
    if CategoryText(x.category).Some? {
      LikeIsSubstring(category, CategoryText(x.category).value);
    }
  }

  // ---------------------------------------------------------------------
  // get_statistics
  // ---------------------------------------------------------------------

  /** A GROUP BY result read into a dict: one (key, count) pair per group. */
  type Groups<K> = seq<(K, nat)>

  function SumCounts<K>(g: Groups<K>): nat {
    if |g| == 0 then 0 else g[0].1 + SumCounts(g[1..])
  }

  /** The position of `k` among the group keys. */
  function FindGroup<K(==)>(g: Groups<K>, k: K): (r: Option<nat>)
    ensures r.Some? ==> r.value < |g| && g[r.value].0 == k
    ensures r.None? ==> forall i :: 0 <= i < |g| ==> g[i].0 != k
  {
    if |g| == 0 then None
    else if g[0].0 == k then Some(0)
    else match FindGroup(g[1..], k)
      case Some(i) => Some(i + 1)
      case None => None
  }

  lemma {:induction false} SumCountsBump<K>(g: Groups<K>, i: nat)
    requires i < |g|
    ensures SumCounts(g[i := (g[i].0, g[i].1 + 1)]) == SumCounts(g) + 1
  {
    if i > 0 {
      assert g[i := (g[i].0, g[i].1 + 1)][1..] == g[1..][i - 1 := (g[i].0, g[i].1 + 1)];
      SumCountsBump(g[1..], i - 1);
    }
  }

  lemma {:induction false} SumCountsAppend<K>(g: Groups<K>, p: (K, nat))
    ensures SumCounts(g + [p]) == SumCounts(g) + p.1
  {
    if |g| > 0 {
      assert (g + [p])[1..] == g[1..] + [p];
      SumCountsAppend(g[1..], p);
    }
  }

  /** The groups are one per distinct key, each holding the number of
      occurrences of its key, and every key of `ks` has a group. */
  ghost predicate TallyOf<K>(g: Groups<K>, ks: seq<K>) {
    && DistinctKeys(g)
    && (forall i :: 0 <= i < |g| ==> g[i].1 == multiset(ks)[g[i].0] && g[i].1 > 0)
    && (forall k :: k in ks ==> exists i :: 0 <= i < |g| && g[i].0 == k)
    && SumCounts(g) == |ks|
  }

  /** The keys of the groups. */
  function KeysOf<K>(g: Groups<K>): set<K> {
    set i | 0 <= i < |g| :: g[i].0
  }

  /** No two groups share a key. */
  ghost predicate DistinctKeys<K>(g: Groups<K>) {
    forall i, j :: 0 <= i < j < |g| ==> g[i].0 != g[j].0
  }

  /** Groups with distinct keys have as many keys as groups. */
  lemma {:induction false} DistinctKeysCount<K>(g: Groups<K>)
    requires DistinctKeys(g)
    ensures |KeysOf(g)| == |g|
  {
    if |g| > 0 {
      var h := g[..|g| - 1];
      assert DistinctKeys(h);
      DistinctKeysCount(h);
      assert KeysOf(g) == KeysOf(h) + {g[|g| - 1].0};
      assert g[|g| - 1].0 !in KeysOf(h);
    }
  }

  /** A tally has one group per distinct key. */
  lemma TallySize<K>(g: Groups<K>, ks: seq<K>)
    requires TallyOf(g, ks)
    ensures |g| == |set k | k in ks|
  {
    assert KeysOf(g) == set k | k in ks by {
      forall k | k in KeysOf(g) ensures k in ks {
        var i :| 0 <= i < |g| && g[i].0 == k;
        assert multiset(ks)[k] > 0;
      }
      forall k | k in ks ensures k in KeysOf(g) {
        var i :| 0 <= i < |g| && g[i].0 == k;
      }
    }
    DistinctKeysCount(g);
  }

  /** A sequence without repeats holds each value at most once. */
  lemma {:induction false} NoRepeatsCount<T>(s: seq<T>)
    requires forall i, j :: 0 <= i < j < |s| ==> s[i] != s[j]
    ensures forall x :: multiset(s)[x] <= 1
  {
    if |s| > 0 {
      var rest := s[1..];
      NoRepeatsCount(rest);
      assert s == [s[0]] + rest;
      assert s[0] !in rest;
    }
  }

  /** A sub-multiset of a sequence without repeats has none either. */
  lemma NoRepeatsSub<T>(r: seq<T>, s: seq<T>)
    requires multiset(r) <= multiset(s)
    requires forall i, j :: 0 <= i < j < |s| ==> s[i] != s[j]
    ensures forall i, j :: 0 <= i < j < |r| ==> r[i] != r[j]
  {
    NoRepeatsCount(s);
    forall i, j | 0 <= i < j < |r| ensures r[i] != r[j] {
      if r[i] == r[j] {
        CountedTwice(r, i, j);
      }
    }
  }

  /** A value at two positions occurs at least twice. */
  lemma CountedTwice<T>(r: seq<T>, i: nat, j: nat)
    requires i < j < |r| && r[i] == r[j]
    ensures multiset(r)[r[i]] >= 2
  {
    assert r == r[..j] + r[j..];
    assert r[i] in r[..j] && r[j] in r[j..];
  }

  /** `top_countries` lists ten countries, or all of them when there are
      fewer. */
  lemma TopCountriesSize(ks: seq<Cell>)
    ensures var top := TopBy(Tally(ks), CountKey, 10);
      |top| == (if |set k | k in ks| < 10 then |set k | k in ks| else 10)
  {
    TallySize(Tally(ks), ks);
  }

  /** `top_countries` lists each country once, with its count. */
  lemma TopCountriesDistinct(ks: seq<Cell>)
    ensures DistinctKeys(TopBy(Tally(ks), CountKey, 10))
  {
    var g := Tally(ks);
    var top := TopBy(g, CountKey, 10);
    TopCountriesFromTally(ks);
    NoRepeatsSub(top, g);
  }

  lemma TopCountriesCounts(ks: seq<Cell>)
    ensures forall p :: p in TopBy(Tally(ks), CountKey, 10) ==> p.1 == multiset(ks)[p.0] && p.1 > 0
  {
    var top := TopBy(Tally(ks), CountKey, 10);
    forall p | p in top ensures p in Tally(ks) {
      assert p in multiset(top);
    }
  }

  lemma TopCountriesFromTally(ks: seq<Cell>)
    ensures var top := TopBy(Tally(ks), CountKey, 10);
      forall i :: 0 <= i < |top| ==> top[i] in Tally(ks)
  {
    var top := TopBy(Tally(ks), CountKey, 10);
    forall i | 0 <= i < |top| ensures top[i] in Tally(ks) {
      assert top[i] in multiset(top);
    }
  }

  /** No country left out of `top_countries` has more rows than the last
      one listed. */
  lemma TopCountriesLargest(ks: seq<Cell>)
    ensures var top := TopBy(Tally(ks), CountKey, 10);
      |top| > 0 ==> forall c :: c in ks && c !in KeysOf(top) ==> multiset(ks)[c] <= top[|top| - 1].1
  {
    var g := Tally(ks);
    var top := TopBy(g, CountKey, 10);
    if |top| > 0 {
      forall c | c in ks && c !in KeysOf(top) ensures multiset(ks)[c] <= top[|top| - 1].1 {
        var gi :| 0 <= gi < |g| && g[gi].0 == c;
        assert g[gi] in multiset(g);
        assert g[gi] !in multiset(top);
        assert CellLe(CountKey(g[gi]), CountKey(top[|top| - 1]));
      }
    }
  }

  /** Counts one more row with key `k`. */
  function Bump<K(==)>(g: Groups<K>, k: K): Groups<K> {
    match FindGroup(g, k)
    case Some(i) => g[i := (k, g[i].1 + 1)]
    case None => g + [(k, 1)]
  }

  lemma BumpExisting<K>(g: Groups<K>, ks: seq<K>, k: K, i: nat)
    requires TallyOf(g, ks) && i < |g| && g[i].0 == k
    ensures TallyOf(g[i := (k, g[i].1 + 1)], ks + [k])
  {
    var r := g[i := (k, g[i].1 + 1)];
    SumCountsBump(g, i);
    assert multiset(ks + [k]) == multiset(ks) + multiset{k};
    forall x | x in ks + [k] ensures exists j :: 0 <= j < |r| && r[j].0 == x {
      if x == k {
        assert r[i].0 == x;
      } else {
        assert x in ks;
        var j :| 0 <= j < |g| && g[j].0 == x;
        assert r[j].0 == x;
      }
    }
  }

  lemma BumpNew<K>(g: Groups<K>, ks: seq<K>, k: K)
    requires TallyOf(g, ks) && forall i :: 0 <= i < |g| ==> g[i].0 != k
    ensures TallyOf(g + [(k, 1)], ks + [k])
  {
    var r := g + [(k, 1)];
    SumCountsAppend(g, (k, 1));
    assert multiset(ks + [k]) == multiset(ks) + multiset{k};
    assert k !in ks;
    forall x | x in ks + [k] ensures exists j :: 0 <= j < |r| && r[j].0 == x {
      if x == k {
        assert r[|g|].0 == x;
      } else {
        assert x in ks;
        var j :| 0 <= j < |g| && g[j].0 == x;
        assert r[j].0 == x;
      }
    }
  }

  /** `SELECT key, COUNT(*) ... GROUP BY key`, in first-seen order (SQLite
      does not fix the order of groups). */
  function Tally<K(==)>(ks: seq<K>): (g: Groups<K>)
    ensures TallyOf(g, ks)
  {
    if |ks| == 0 then []
    else
      var init := ks[..|ks| - 1];
      var k := ks[|ks| - 1];
      assert ks == init + [k];
      var g := Tally(init);
      match FindGroup(g, k)
      case Some(i) => BumpExisting(g, init, k, i); g[i := (k, g[i].1 + 1)]
      case None => BumpNew(g, init, k); g + [(k, 1)]
  }

  /** The statistics dict (the average score, a float, is not modelled). */
  datatype Stats = Stats(total: nat, byTier: Groups<Cell>, byCategory: Groups<Cell>, topCountries: Groups<Cell>)

  function Tiers(rows: seq<DB.StartupRow>): (r: seq<Cell>)
    ensures |r| == |rows| && forall i :: 0 <= i < |rows| ==> r[i] == rows[i].primaryTier
  {
    seq(|rows|, i requires 0 <= i < |rows| => rows[i].primaryTier)
  }

  function Categories(rows: seq<DB.StartupRow>): (r: seq<Cell>)
    ensures |r| == |rows| && forall i :: 0 <= i < |rows| ==> r[i] == rows[i].category
  {
    seq(|rows|, i requires 0 <= i < |rows| => rows[i].category)
  }

  function Countries(rows: seq<DB.StartupRow>): (r: seq<Cell>)
    ensures |r| == |rows| && forall i :: 0 <= i < |rows| ==> r[i] == rows[i].country
  {
    seq(|rows|, i requires 0 <= i < |rows| => rows[i].country)
  }

  function CountKey(p: (Cell, nat)): Cell {
    Int(p.1)
  }

  /** Every row's tier is among the tiers counted. */
  lemma TierListed(rows: seq<DB.StartupRow>, x: DB.StartupRow)
    requires x in rows
    ensures x.primaryTier in Tiers(rows)
  {
    var i :| 0 <= i < |rows| && rows[i] == x;
    assert Tiers(rows)[i] == x.primaryTier;
  }

  /** The statistics of a readable table. */
  function StatsOf(rows: seq<DB.StartupRow>): (st: Stats)
    ensures st.total == |rows|
    ensures TallyOf(st.byTier, Tiers(rows))
    ensures TallyOf(st.byCategory, Categories(rows))
    ensures |st.topCountries| <= 10
    ensures SortedDesc(st.topCountries, CountKey)
    ensures forall p :: p in st.topCountries ==> p.1 == multiset(Countries(rows))[p.0] && p.1 > 0
    ensures var n := |set c | c in Countries(rows)|; |st.topCountries| == if n < 10 then n else 10
    ensures DistinctKeys(st.topCountries)
    ensures |st.topCountries| > 0 ==> forall c :: c in Countries(rows) && c !in KeysOf(st.topCountries) ==>
      multiset(Countries(rows))[c] <= st.topCountries[|st.topCountries| - 1].1
  {
    var countries := Tally(Countries(rows));
    var top := TopBy(countries, CountKey, 10);
    TopCountriesSize(Countries(rows));
    TopCountriesDistinct(Countries(rows));
    TopCountriesCounts(Countries(rows));
    TopCountriesLargest(Countries(rows));
    Stats(|rows|, Tally(Tiers(rows)), Tally(Categories(rows)), top)
  }

  /** `get_statistics`: `None` stands for the `{}` returned on error. */
  function GetStatistics(db: DB.Backend): (r: Option<Stats>)
    ensures r.None? <==> !(db.Online? && db.store.startups.Some?)
    ensures r.Some? ==> r.value.total == |DB.StartupRows(db)|
    ensures r.Some? ==> TallyOf(r.value.byTier, Tiers(DB.StartupRows(db)))
    ensures r.Some? ==> TallyOf(r.value.byCategory, Categories(DB.StartupRows(db)))
    ensures r.Some? ==> |r.value.topCountries| <= 10
    ensures r.Some? ==> SortedDesc(r.value.topCountries, CountKey)
    ensures r.Some? ==> forall p :: p in r.value.topCountries ==>
      p.1 == multiset(Countries(DB.StartupRows(db)))[p.0] && p.1 > 0
    ensures r.Some? ==> var n := |set c | c in Countries(DB.StartupRows(db))|;
      |r.value.topCountries| == if n < 10 then n else 10
    ensures r.Some? ==> DistinctKeys(r.value.topCountries)
    ensures r.Some? && |r.value.topCountries| > 0 ==>
      forall c :: c in Countries(DB.StartupRows(db)) && c !in KeysOf(r.value.topCountries) ==>
        multiset(Countries(DB.StartupRows(db)))[c] <= r.value.topCountries[|r.value.topCountries| - 1].1
  {
    if !(db.Online? && db.store.startups.Some?) then None
    else Some(StatsOf(DB.StartupRows(db)))
  }

  /** Every row falls in exactly one tier group, the NULL group included,
      and the group counts add up to the total. */
  lemma TierGroupsCoverAllRows(db: DB.Backend, x: DB.StartupRow)
    requires db.Online? && db.store.startups.Some?
    requires x in DB.StartupRows(db)
    ensures var st := GetStatistics(db).value;
      && SumCounts(st.byTier) == st.total
      && (exists i :: 0 <= i < |st.byTier| && st.byTier[i].0 == x.primaryTier)
      && (forall i, j :: 0 <= i < j < |st.byTier| && st.byTier[i].0 == x.primaryTier ==>
            st.byTier[j].0 != x.primaryTier)
  {
    TierListed(DB.StartupRows(db), x);
  }

  // ---------------------------------------------------------------------
  // print_table
  // ---------------------------------------------------------------------

  /** `dict(row)` for a stored row. */
  function RowDict(r: DB.StartupRow): map<string, Cell> {
    map["id" := Int(r.id), "name" := r.name, "website" := r.website, "description" := r.description,
        "category" := r.category, "founded_date" := r.foundedDate, "country" := r.country,
        "india_fit_score" := r.fitScore, "india_fit_analysis" := r.fitAnalysis,
        "primary_tier" := r.primaryTier, "secondary_tiers" := r.secondaryTiers, "source" := r.source,
        "source_url" := r.sourceUrl, "created_at" := Int(r.createdAt), "updated_at" := Int(r.updatedAt),
        "hash" := r.hash]
  }

  const DefaultColumns: seq<string> := ["name", "category", "country", "india_fit_score", "primary_tier"]

  /** The grid `print_table` hands to `tabulate`. */
  datatype Grid = Grid(headers: seq<string>, cells: seq<seq<Cell>>)

  /** The requested columns present in `first`, in requested order. */
  function AvailableColumns(cols: seq<string>, first: map<string, Cell>): (r: seq<string>)
    ensures forall c :: c in r <==> c in cols && c in first
    ensures IsSubsequence(r, cols)
    ensures forall c :: multiset(r)[c] == if c in first then multiset(cols)[c] else 0
  {
    if |cols| == 0 then []
    else
      assert cols == [cols[0]] + cols[1..];
      if cols[0] in first then [cols[0]] + AvailableColumns(cols[1..], first)
      else AvailableColumns(cols[1..], first)
  }

  /** One printed row: each available column's value, or "N/A". */
  function RowCells(row: map<string, Cell>, cols: seq<string>): (r: seq<Cell>)
    ensures |r| == |cols|
    ensures forall j :: 0 <= j < |cols| ==> r[j] == if cols[j] in row then row[cols[j]] else Text("N/A")
  {
    seq(|cols|, j requires 0 <= j < |cols| => if cols[j] in row then row[cols[j]] else Text("N/A"))
  }

  /** `print_table`: `None` is the "No startups to display" case. */
  function PrintTable(rows: seq<map<string, Cell>>, columns: Option<seq<string>>): (r: Option<Grid>)
    ensures r.None? <==> |rows| == 0
    ensures r.Some? ==> forall c :: c in r.value.headers <==> c in columns.GetOr(DefaultColumns) && c in rows[0]
    ensures r.Some? ==> IsSubsequence(r.value.headers, columns.GetOr(DefaultColumns))
    ensures r.Some? ==> forall c ::
      multiset(r.value.headers)[c] == if c in rows[0] then multiset(columns.GetOr(DefaultColumns))[c] else 0
    ensures r.Some? ==> |r.value.cells| == |rows|
    ensures r.Some? ==> forall i :: 0 <= i < |rows| ==> |r.value.cells[i]| == |r.value.headers|
    ensures r.Some? ==> forall i, j :: 0 <= i < |rows| && 0 <= j < |r.value.headers| ==>
      r.value.cells[i][j] == if r.value.headers[j] in rows[i] then rows[i][r.value.headers[j]] else Text("N/A")
  {
    if |rows| == 0 then None
    else
      var cols := AvailableColumns(columns.GetOr(DefaultColumns), rows[0]);
      Some(Grid(cols, seq(|rows|, i requires 0 <= i < |rows| => RowCells(rows[i], cols))))
  }
}
