/** `_process_and_save_results` and `generate_run_id` of
    src/crew_orchestration.py: the crew's result text is parsed into
    records, each record is merged with the tier and market-fit maps taken
    from the same text, inserted, and the run is summarised in
    `run_metadata`. */
module Pipeline {
  import opened Options
  import opened Strings
  import opened JsonValues
  import opened SqlValues
  import opened Extraction
  import DB = Database
  import opened Seqs

  // ---------------------------------------------------------------------
  // generate_run_id
  // ---------------------------------------------------------------------

  /** A local `datetime.now()` reading, to the second. */
  datatype DateTime = DateTime(year: nat, month: nat, day: nat, hour: nat, minute: nat, second: nat)

  predicate ValidDateTime(t: DateTime) {
    && 1000 <= t.year <= 9999
    && 1 <= t.month <= 12 && 1 <= t.day <= 31
    && t.hour < 24 && t.minute < 60 && t.second < 60
  }

  /** `%Y%m%d`. */
  function DatePart(t: DateTime): (r: string)
    requires ValidDateTime(t)
    ensures |r| == 8
  {
    assert Pow10(2) == 100 && Pow10(4) == 10000;
    PadDigits(t.year, 4) + PadDigits(t.month, 2) + PadDigits(t.day, 2)
  }

  /** `%H%M%S`. */
  function TimePart(t: DateTime): (r: string)
    requires ValidDateTime(t)
    ensures |r| == 6
  {
    assert Pow10(2) == 100;
    PadDigits(t.hour, 2) + PadDigits(t.minute, 2) + PadDigits(t.second, 2)
  }

  /** `run_` followed by `strftime('%Y%m%d_%H%M%S')`. */
  function GenerateRunId(t: DateTime): (r: string)
    requires ValidDateTime(t)
    ensures |r| == 19 && r[..4] == "run_" && r[12] == '_'
  {
    var r := "run_" + DatePart(t) + "_" + TimePart(t);
    assert r[..4] == "run_";
    r
  }

  /** A fixed-width decimal field of a run id, if it is all digits. */
  function FieldAt(s: string, lo: nat, hi: nat): Option<nat>
    requires lo <= hi <= |s|
  {
    if AllDigits(s[lo..hi]) then Some(DigitsValue(s[lo..hi])) else None
  }

  /** Reads a run id back into its date and time. */
  function ParseRunId(s: string): Option<DateTime> {
    if |s| != 19 || s[..4] != "run_" || s[12] != '_' then None
    else
      match (FieldAt(s, 4, 8), FieldAt(s, 8, 10), FieldAt(s, 10, 12), FieldAt(s, 13, 15), FieldAt(s, 15, 17), FieldAt(s, 17, 19))
      case (Some(y), Some(mo), Some(d), Some(h), Some(mi), Some(se)) => Some(DateTime(y, mo, d, h, mi, se))
      case _ => None
  }

  /** Digits read back from a padded field. */
  lemma PaddedField(s: string, lo: nat, n: nat, width: nat)
    requires n < Pow10(width) && lo + width <= |s| && s[lo..lo + width] == PadDigits(n, width)
    ensures FieldAt(s, lo, lo + width) == Some(n)
  {
  }

  /** The run id encodes the moment exactly: parsing it gives the moment
      back, so distinct seconds give distinct ids. */
  lemma RunIdRoundTrip(t: DateTime)
    requires ValidDateTime(t)
    ensures ParseRunId(GenerateRunId(t)) == Some(t)
  {
    RunIdDateFields(t);
    RunIdTimeFields(t);
  }

  /** The date fields of a run id read back as the date. */
  lemma RunIdDateFields(t: DateTime)
    requires ValidDateTime(t)
    ensures var r := GenerateRunId(t);
      && FieldAt(r, 4, 8) == Some(t.year)
      && FieldAt(r, 8, 10) == Some(t.month)
      && FieldAt(r, 10, 12) == Some(t.day)
  {
    assert Pow10(2) == 100 && Pow10(4) == 10000;
    var r := GenerateRunId(t);
    var y, mo, d, rest := PadDigits(t.year, 4), PadDigits(t.month, 2), PadDigits(t.day, 2), "_" + TimePart(t);
    SliceOfMiddle("run_", y, mo + d + rest);
    SliceOfMiddle("run_" + y, mo, d + rest);
    SliceOfMiddle("run_" + y + mo, d, rest);
    PaddedField(r, 4, t.year, 4);
    PaddedField(r, 8, t.month, 2);
    PaddedField(r, 10, t.day, 2);
  }

  /** The time fields of a run id read back as the time of day. */
  lemma RunIdTimeFields(t: DateTime)
    requires ValidDateTime(t)
    ensures var r := GenerateRunId(t);
      && FieldAt(r, 13, 15) == Some(t.hour)
      && FieldAt(r, 15, 17) == Some(t.minute)
      && FieldAt(r, 17, 19) == Some(t.second)
  {
    assert Pow10(2) == 100;
    var r := GenerateRunId(t);
    var front, h, mi, se := "run_" + DatePart(t) + "_", PadDigits(t.hour, 2), PadDigits(t.minute, 2),
      PadDigits(t.second, 2);
    SliceOfMiddle(front, h, mi + se);
    SliceOfMiddle(front + h, mi, se);
    SliceOfMiddle(front + h + mi, se, "");
    PaddedField(r, 13, t.hour, 2);
    PaddedField(r, 15, t.minute, 2);
    PaddedField(r, 17, t.second, 2);
  }

  lemma SliceOfMiddle(a: string, b: string, c: string)
    ensures (a + b + c)[|a|..|a| + |b|] == b
  {
  }

  lemma RunIdInjective(a: DateTime, b: DateTime)
    requires ValidDateTime(a) && ValidDateTime(b) && a != b
    ensures GenerateRunId(a) != GenerateRunId(b)
  {
    RunIdRoundTrip(a);
    RunIdRoundTrip(b);
  }

  // ---------------------------------------------------------------------
  // Building the record to insert
  // ---------------------------------------------------------------------

  /** A value of the builtin `hash`: a machine word (`Py_hash_t`). */
  type HashValue = h: int | InInt64(h)

  /** The library calls the pipeline makes: `json.loads`, `json.dumps`
      and the builtin `hash`, fixed for one process. */
  datatype Foreign = Foreign(decode: Decoder, dumps: Json -> string, pyHash: PyKey -> HashValue)

  /** Sets `primary_tier` and `secondary_tiers`: from the tier map when it
      has the name, else from the record when it carries `primary_tier`,
      else not at all. */
  function WithTier(d: PyDict, startup: PyDict, key: PyKey, tiers: NameMap): (r: PyDict)
    ensures key in tiers ==>
      && "primary_tier" in r && "secondary_tiers" in r
      && r["primary_tier"] == Get(tiers[key], "primary_tier")
      && r["secondary_tiers"] == Get(tiers[key], "secondary_tiers")
    ensures key !in tiers && "primary_tier" in startup ==>
      && "primary_tier" in r && "secondary_tiers" in r
      && r["primary_tier"] == startup["primary_tier"]
      && r["secondary_tiers"] == Get(startup, "secondary_tiers")
    ensures key !in tiers && "primary_tier" !in startup ==> r == d
    ensures forall k :: k != "primary_tier" && k != "secondary_tiers" ==>
      (k in r <==> k in d) && (k in d ==> r[k] == d[k])
  {
    if key in tiers then
      d["primary_tier" := Get(tiers[key], "primary_tier")]["secondary_tiers" := Get(tiers[key], "secondary_tiers")]
    else if "primary_tier" in startup then
      d["primary_tier" := Get(startup, "primary_tier")]["secondary_tiers" := Get(startup, "secondary_tiers")]
    else d
  }

  /** Sets `india_fit_score` and `india_fit_analysis` the same way; a map
      entry without `score` gives 0, one with `score: null` gives null. */
  function WithFit(d: PyDict, startup: PyDict, key: PyKey, fits: NameMap): (r: PyDict)
    ensures key in fits ==>
      && "india_fit_score" in r && "india_fit_analysis" in r
      && r["india_fit_score"] == GetOr(fits[key], "score", JNum(0))
      && r["india_fit_analysis"] == Get(fits[key], "analysis")
    ensures key !in fits && "india_fit_score" in startup ==>
      && "india_fit_score" in r && "india_fit_analysis" in r
      && r["india_fit_score"] == startup["india_fit_score"]
      && r["india_fit_analysis"] == Get(startup, "india_fit_analysis")
    ensures key !in fits && "india_fit_score" !in startup ==> r == d
    ensures forall k :: k != "india_fit_score" && k != "india_fit_analysis" ==>
      (k in r <==> k in d) && (k in d ==> r[k] == d[k])
  {
    if key in fits then
      d["india_fit_score" := GetOr(fits[key], "score", JNum(0))]["india_fit_analysis" := Get(fits[key], "analysis")]
    else if "india_fit_score" in startup then
      d["india_fit_score" := GetOr(startup, "india_fit_score", JNum(0))]["india_fit_analysis" := Get(startup, "india_fit_analysis")]
    else d
  }

  /** The columns copied from the record, before any annotation. */
  function BaseRecord(startup: PyDict, name: Json, key: PyKey, pyHash: PyKey -> HashValue): (d: PyDict)
    ensures "name" in d && d["name"] == name
    ensures "hash" in d && d["hash"] == JNum(pyHash(key))
    ensures "website" in d && d["website"] == Or(Get(startup, "website"), Get(startup, "url"))
    ensures "founded_date" in d && d["founded_date"] == Or(Get(startup, "founded_date"), Get(startup, "date"))
    ensures "primary_tier" !in d && "secondary_tiers" !in d
    ensures "india_fit_score" !in d && "india_fit_analysis" !in d
  {
    map["name" := name, "website" := Or(Get(startup, "website"), Get(startup, "url")),
      "description" := Get(startup, "description"), "category" := Get(startup, "category"),
      "founded_date" := Or(Get(startup, "founded_date"), Get(startup, "date")),
      "country" := Get(startup, "country"), "source" := Get(startup, "source"),
      "source_url" := Get(startup, "source_url"), "hash" := JNum(pyHash(key))]
  }

  /** `startup_data` for one record whose truthy name hashes to `key`. */
  function BuildStartupData(startup: PyDict, name: Json, key: PyKey, pyHash: PyKey -> HashValue,
                            tiers: NameMap, fits: NameMap): (d: PyDict)
    ensures Get(d, "name") == name
    ensures Get(d, "hash") == JNum(pyHash(key))
    ensures Get(d, "website") == Or(Get(startup, "website"), Get(startup, "url"))
    ensures Get(d, "founded_date") == Or(Get(startup, "founded_date"), Get(startup, "date"))
    ensures "primary_tier" in d <==> key in tiers || "primary_tier" in startup
    ensures "india_fit_score" in d <==> key in fits || "india_fit_score" in startup
  {
    WithFit(WithTier(BaseRecord(startup, name, key, pyHash), startup, key, tiers), startup, key, fits)
  }

  /** The tier a record is stored with: the map entry for its exact name
      wins over a tier embedded in the record, which is used only on a
      miss; with neither, the column is NULL. */
  lemma TierPrecedence(startup: PyDict, name: Json, key: PyKey, pyHash: PyKey -> HashValue, tiers: NameMap, fits: NameMap)
    ensures var d := BuildStartupData(startup, name, key, pyHash, tiers, fits);
      && (key in tiers ==>
            Get(d, "primary_tier") == Get(tiers[key], "primary_tier") &&
            Get(d, "secondary_tiers") == Get(tiers[key], "secondary_tiers"))
      && (key !in tiers && "primary_tier" in startup ==>
            Get(d, "primary_tier") == Get(startup, "primary_tier") &&
            Get(d, "secondary_tiers") == Get(startup, "secondary_tiers"))
      && (key !in tiers && "primary_tier" !in startup ==>
            Get(d, "primary_tier") == JNull && Get(d, "secondary_tiers") == JNull)
  {
    var t := WithTier(BaseRecord(startup, name, key, pyHash), startup, key, tiers);
    var d := WithFit(t, startup, key, fits);
    assert ("primary_tier" in d <==> "primary_tier" in t) && ("secondary_tiers" in d <==> "secondary_tiers" in t);
    assert "primary_tier" in t ==> d["primary_tier"] == t["primary_tier"];
    assert "secondary_tiers" in t ==> d["secondary_tiers"] == t["secondary_tiers"];
  }

  /** The score a record is stored with: the map entry's `score` (0 when
      the entry has none), else the embedded `india_fit_score`, else the
      insert's default of 0. */
  lemma ScorePrecedence(startup: PyDict, name: Json, key: PyKey, pyHash: PyKey -> HashValue, tiers: NameMap, fits: NameMap)
    ensures var d := BuildStartupData(startup, name, key, pyHash, tiers, fits);
      GetOr(d, "india_fit_score", JNum(0)) ==
        if key in fits then GetOr(fits[key], "score", JNum(0))
        else GetOr(startup, "india_fit_score", JNum(0))
  {
  }

  // ---------------------------------------------------------------------
  // The merge loop
  // ---------------------------------------------------------------------

  /** A record that makes the loop raise: an object whose truthy name is a
      list or an object, which `hash` refuses. */
  predicate Raises(item: Json) {
    item.JObj? && Truthy(NameOf(item.fields)) && KeyOf(NameOf(item.fields)).None?
  }

  /** A record the loop tries to insert. */
  predicate Insertable(item: Json) {
    item.JObj? && Truthy(NameOf(item.fields)) && KeyOf(NameOf(item.fields)).Some?
  }

  function RecordOf(item: Json, f: Foreign, tiers: NameMap, fits: NameMap): PyDict
    requires Insertable(item)
  {
    BuildStartupData(item.fields, NameOf(item.fields), KeyOf(NameOf(item.fields)).value, f.pyHash, tiers, fits)
  }

  /** The record built for each item, as one function value: the loop
      below is stated over it. Items that are not inserted get no record. */
  function Builder(f: Foreign, tiers: NameMap, fits: NameMap): (build: Json -> PyDict)
    ensures forall item :: Insertable(item) ==> build(item) == RecordOf(item, f, tiers, fits)
  {
    (item: Json) => if Insertable(item) then RecordOf(item, f, tiers, fits) else map[]
  }

  /** A record's name is never stored as NULL, and its hash column holds
      the decimal text of `hash(name)`: the column is TEXT. */
  lemma RecordCells(item: Json, f: Foreign, tiers: NameMap, fits: NameMap)
    requires Insertable(item)
    ensures var d := RecordOf(item, f, tiers, fits);
      && DB.NameCell(d) == DB.TextColumn(NameOf(item.fields))
      && DB.NameCell(d) != Some(Null)
      && DB.HashCell(d) == Some(Text(IntToDecimal(f.pyHash(KeyOf(NameOf(item.fields)).value))))
  {
  }

  lemma InsertKeepsValid(db: DB.Backend, data: PyDict, dumps: Json -> string, tick: nat)
    ensures db.Online? && DB.Valid(db.store) ==>
      DB.InsertStartup(db, data, dumps, tick).db.Online? && DB.Valid(DB.InsertStartup(db, data, dumps, tick).db.store)
  {
    if db.Online? && DB.Valid(db.store) {
      DB.InsertPreservesValid(db, data, dumps, tick);
    }
  }

  /** The fate of one record: inserted or not, and whether the loop raised
      on it. */
  datatype Step = Step(db: DB.Backend, inserted: bool, aborted: bool)

  /** What one step does to the table: nothing, or it appends one row
      holding the record's values. */
  predicate StepRows(db: DB.Backend, s: Step, item: Json, build: Json -> PyDict, dumps: Json -> string) {
    && (s.inserted ==>
          && Insertable(item)
          && |DB.StartupRows(s.db)| == |DB.StartupRows(db)| + 1
          && DB.StartupRows(s.db)[..|DB.StartupRows(db)|] == DB.StartupRows(db)
          && DB.RowHolds(DB.StartupRows(s.db)[|DB.StartupRows(db)|], build(item), dumps))
    && (!s.inserted ==> s.db == db)
  }

  /** One record: skipped, refused or inserted by `insert_startup`, or the
      loop raises. */
  function Visit(db: DB.Backend, item: Json, build: Json -> PyDict, dumps: Json -> string, tick: nat): (s: Step)
    ensures s.aborted <==> Raises(item)
    ensures Insertable(item) ==>
      (s.inserted <==> DB.Admissible(db, build(item), dumps) && DB.Fresh(DB.StartupRows(db), build(item)))
    ensures StepRows(db, s, item, build, dumps)
    ensures DB.Writable(s.db) == DB.Writable(db)
    ensures s.db.Online? == db.Online? && (db.Online? ==> s.db.store.runs == db.store.runs)
    ensures db.Online? && DB.Valid(db.store) ==> s.db.Online? && DB.Valid(s.db.store)
  {
    if Raises(item) then Step(db, false, true)
    else if !Insertable(item) then Step(db, false, false)
    else
      var w := DB.InsertStartup(db, build(item), dumps, tick);
      InsertKeepsValid(db, build(item), dumps, tick);
      Step(w.db, w.ok, false)
  }

  /** A row stored for record `j` of `items`: `j` is a record the loop
      tries, and the row holds that record's values. */
  function StoredRow(items: seq<Json>, build: Json -> PyDict, dumps: Json -> string): (DB.StartupRow, nat) -> bool {
    (row: DB.StartupRow, j: nat) =>
      j < |items| && Insertable(items[j]) && DB.RowHolds(row, build(items[j]), dumps)
  }

  /** `after` is `before` followed by one row per index of `stored`, the
      indices increasing, each row holding the record at its index. */
  predicate Appended(before: seq<DB.StartupRow>, after: seq<DB.StartupRow>, stored: seq<nat>, items: seq<Json>,
                     build: Json -> PyDict, dumps: Json -> string) {
    && Increasing(stored)
    && AppendedBy(before, after, stored, StoredRow(items, build, dumps))
  }

  /** Every record from `lo` on that was tried and not stored was refused:
      it cannot be inserted into this database at all, or it clashes with
      a row of the final table. */
  predicate Refused(db: DB.Backend, after: seq<DB.StartupRow>, stored: seq<nat>, items: seq<Json>, lo: nat,
                    build: Json -> PyDict, dumps: Json -> string) {
    forall j :: lo <= j < |items| && Insertable(items[j]) && j !in stored ==>
      !DB.Admissible(db, build(items[j]), dumps) || !DB.Fresh(after, build(items[j]))
  }

  /** The loop's result: the indices of the records it inserted, in
      order (`inserted_count` is their number), and whether it raised. */
  datatype Merge = Merge(db: DB.Backend, stored: seq<nat>, aborted: bool)

  /** The loop from record `i` on; the write for record `j` advances the
      clock by `tick(j)`. An exception stops the loop, keeping the rows
      already inserted. */
  function MergeFrom(db: DB.Backend, items: seq<Json>, i: nat, build: Json -> PyDict, dumps: Json -> string,
                     tick: nat -> nat): (m: Merge)
    requires i <= |items|
    decreases |items| - i
    ensures |m.stored| <= |items| - i
    ensures Increasing(m.stored) && forall k :: 0 <= k < |m.stored| ==> i <= m.stored[k] < |items|
    ensures DB.Writable(m.db) == DB.Writable(db)
    ensures m.db.Online? == db.Online? && (db.Online? ==> m.db.store.runs == db.store.runs)
    ensures DB.RunRows(m.db) == DB.RunRows(db)
  {
    if i == |items| then Merge(db, [], false)
    else
      var v := Visit(db, items[i], build, dumps, tick(i));
      if v.aborted then Merge(v.db, [], true)
      else
        var m := MergeFrom(v.db, items, i + 1, build, dumps, tick);
        if v.inserted then
          IncreasingCons(i, m.stored);
          Merge(m.db, [i] + m.stored, m.aborted)
        else Merge(m.db, m.stored, m.aborted)
  }

  lemma PrefixTrans<T>(a: seq<T>, b: seq<T>, c: seq<T>)
    requires |a| <= |b| && b[..|a|] == a
    requires |b| <= |c| && c[..|b|] == b
    ensures |a| <= |c| && c[..|a|] == a
  {
    assert c[..|a|] == c[..|b|][..|a|];
  }

  /** The loop keeps a well-formed database well-formed. */
  lemma {:induction false} MergeKeepsValid(db: DB.Backend, items: seq<Json>, i: nat, build: Json -> PyDict,
                                           dumps: Json -> string, tick: nat -> nat)
    requires i <= |items|
    decreases |items| - i
    ensures var m := MergeFrom(db, items, i, build, dumps, tick);
      db.Online? && DB.Valid(db.store) ==> m.db.Online? && DB.Valid(m.db.store)
  {
    if i < |items| {
      var v := Visit(db, items[i], build, dumps, tick(i));
      if !v.aborted {
        MergeKeepsValid(v.db, items, i + 1, build, dumps, tick);
      }
    }
  }

  /** The loop appends, in order, one row per record it inserted, holding
      that record's values. */
  lemma {:induction false} MergeStores(db: DB.Backend, items: seq<Json>, i: nat, build: Json -> PyDict,
                                       dumps: Json -> string, tick: nat -> nat)
    requires i <= |items|
    decreases |items| - i
    ensures var m := MergeFrom(db, items, i, build, dumps, tick);
      Appended(DB.StartupRows(db), DB.StartupRows(m.db), m.stored, items, build, dumps)
  {
    if i < |items| {
      var v := Visit(db, items[i], build, dumps, tick(i));
      if !v.aborted {
        var m := MergeFrom(v.db, items, i + 1, build, dumps, tick);
        MergeStores(v.db, items, i + 1, build, dumps, tick);
        StoresStep(db, v, DB.StartupRows(m.db), i, m.stored, items, build, dumps);
      }
    }
  }

  /** Record `i`'s step followed by the rest of the loop: the rows. */
  lemma StoresStep(db: DB.Backend, v: Step, after: seq<DB.StartupRow>, i: nat, stored: seq<nat>,
                   items: seq<Json>, build: Json -> PyDict, dumps: Json -> string)
    requires i < |items|
    requires StepRows(db, v, items[i], build, dumps)
    requires AppendedBy(DB.StartupRows(v.db), after, stored, StoredRow(items, build, dumps))
    ensures AppendedBy(DB.StartupRows(db), after, if v.inserted then [i] + stored else stored,
                       StoredRow(items, build, dumps))
  {
    if v.inserted {
      AppendedByStep(DB.StartupRows(db), DB.StartupRows(v.db), after, i, stored, StoredRow(items, build, dumps));
    }
  }

  /** The loop only appends, so the rows stored before it stay in front;
      and when it runs to the end, every record it tried and did not
      store was refused by `insert_startup`. */
  lemma {:induction false} MergeRefuses(db: DB.Backend, items: seq<Json>, i: nat, build: Json -> PyDict,
                                        dumps: Json -> string, tick: nat -> nat)
    requires i <= |items|
    decreases |items| - i
    ensures var m := MergeFrom(db, items, i, build, dumps, tick);
      && |DB.StartupRows(db)| <= |DB.StartupRows(m.db)|
      && DB.StartupRows(m.db)[..|DB.StartupRows(db)|] == DB.StartupRows(db)
      && (!m.aborted ==> Refused(db, DB.StartupRows(m.db), m.stored, items, i, build, dumps))
  {
    if i < |items| {
      var v := Visit(db, items[i], build, dumps, tick(i));
      if !v.aborted {
        var m := MergeFrom(v.db, items, i + 1, build, dumps, tick);
        MergeRefuses(v.db, items, i + 1, build, dumps, tick);
        MergeStepRefused(db, v, DB.StartupRows(m.db), !m.aborted, m.stored, items, i, build, dumps);
      }
    }
  }

  /** Record `i`'s step followed by the rest of the loop: the rows kept in
      front and the refusals. */
  lemma MergeStepRefused(db: DB.Backend, v: Step, after: seq<DB.StartupRow>, done: bool, m: seq<nat>,
                         items: seq<Json>, i: nat, build: Json -> PyDict, dumps: Json -> string)
    requires i < |items|
    requires Insertable(items[i]) ==>
      (v.inserted <==> DB.Admissible(db, build(items[i]), dumps) && DB.Fresh(DB.StartupRows(db), build(items[i])))
    requires StepRows(db, v, items[i], build, dumps)
    requires DB.Writable(v.db) == DB.Writable(db)
    requires |DB.StartupRows(v.db)| <= |after| && after[..|DB.StartupRows(v.db)|] == DB.StartupRows(v.db)
    requires done ==> Refused(v.db, after, m, items, i + 1, build, dumps)
    ensures |DB.StartupRows(db)| <= |after| && after[..|DB.StartupRows(db)|] == DB.StartupRows(db)
    ensures done ==> Refused(db, after, if v.inserted then [i] + m else m, items, i, build, dumps)
  {
    PrefixTrans(DB.StartupRows(db), DB.StartupRows(v.db), after);
    var stored := if v.inserted then [i] + m else m;
    if done {
      forall j | i <= j < |items| && Insertable(items[j]) && j !in stored
        ensures !DB.Admissible(db, build(items[j]), dumps) || !DB.Fresh(after, build(items[j]))
      {
        if j == i {
          if DB.Fresh(after, build(items[j])) {
            DB.FreshPrefix(DB.StartupRows(db), after, build(items[j]));
          }
        } else {
          assert j !in m;
        }
      }
    }
  }

  /** The loop stops early exactly when some remaining record has an
      unhashable name. */
  lemma {:induction false} MergeAbortsIff(db: DB.Backend, items: seq<Json>, i: nat, build: Json -> PyDict,
                                          dumps: Json -> string, tick: nat -> nat)
    requires i <= |items|
    decreases |items| - i
    ensures MergeFrom(db, items, i, build, dumps, tick).aborted <==> exists j :: i <= j < |items| && Raises(items[j])
  {
    if i == |items| {
    } else if Raises(items[i]) {
      assert Visit(db, items[i], build, dumps, tick(i)).aborted;
    } else {
      var v := Visit(db, items[i], build, dumps, tick(i));
      MergeAbortsIff(v.db, items, i + 1, build, dumps, tick);
      RaisesLater(items, i);
    }
  }

  lemma RaisesLater(items: seq<Json>, i: nat)
    requires i < |items| && !Raises(items[i])
    ensures (exists j :: i <= j < |items| && Raises(items[j])) <==> (exists j :: i + 1 <= j < |items| && Raises(items[j]))
  {
    if j :| i <= j < |items| && Raises(items[j]) {
      assert j != i;
    }
  }

  // ---------------------------------------------------------------------
  // Tier counts
  // ---------------------------------------------------------------------

  function InTier(tier: string): DB.StartupRow -> bool {
    (x: DB.StartupRow) => x.primaryTier == Text(tier)
  }

  /** `len([s for s in all_startups if s.get('primary_tier') == tier])`. */
  function CountTier(rows: seq<DB.StartupRow>, tier: string): nat {
    CountWhere(rows, InTier(tier))
  }

  /** The three tier counts never exceed the total: a row has one tier. */
  lemma {:induction false} TierCountsBounded(rows: seq<DB.StartupRow>)
    ensures CountTier(rows, "Tier 1") + CountTier(rows, "Tier 2") + CountTier(rows, "Tier 3") <= |rows|
  {
    if |rows| > 0 {
      TierCountsBounded(rows[1..]);
    }
  }

  // ---------------------------------------------------------------------
  // _process_and_save_results
  // ---------------------------------------------------------------------

  /** `Aborted` is the exception caught at the end of the method, logged
      and swallowed; rows inserted before it stay. `stored` lists the
      records inserted, by index into the parsed list. */
  datatype Outcome =
    | Aborted(db: DB.Backend, stored: seq<nat>)
    | Completed(db: DB.Backend, stored: seq<nat>, runData: PyDict, saved: bool)

  /** The `run_data` dict. */
  function RunData(runId: string, total: nat, t1: nat, t2: nat, t3: nat, processingTime: Json,
                   reportPath: string): (d: PyDict)
    ensures Get(d, "run_id") == JStr(runId)
    ensures Get(d, "total_startups_found") == JNum(total)
    ensures Get(d, "tier_1_count") == JNum(t1)
    ensures Get(d, "tier_2_count") == JNum(t2)
    ensures Get(d, "tier_3_count") == JNum(t3)
    ensures Get(d, "processing_time_seconds") == processingTime
    ensures Get(d, "status") == JStr("completed")
    ensures Get(d, "report_path") == JStr(reportPath)
  {
    map["run_id" := JStr(runId), "total_startups_found" := JNum(total),
        "tier_1_count" := JNum(t1), "tier_2_count" := JNum(t2), "tier_3_count" := JNum(t3),
        "processing_time_seconds" := processingTime, "status" := JStr("completed"),
        "report_path" := JStr(reportPath)]
  }

  lemma RunInsertKeepsValid(db: DB.Backend, data: PyDict, tick: nat)
    ensures db.Online? && DB.Valid(db.store) ==>
      DB.InsertRunMetadata(db, data, tick).db.Online? && DB.Valid(DB.InsertRunMetadata(db, data, tick).db.store)
  {
    var w := DB.InsertRunMetadata(db, data, tick);
    if db.Online? && DB.Valid(db.store) && w.ok {
      assert w.db.store.startups == db.store.startups;
      assert w.db.store.clock >= db.store.clock;
    }
  }

  /** `run_metadata` of `db` can take a run over `rows`: the table is
      writable, the counts fit in 64 bits, the processing time binds and
      the run id is new. */
  predicate RunAccepted(db: DB.Backend, rows: seq<DB.StartupRow>, runId: string, processingTime: Json) {
    && DB.RunsWritable(db) && InInt64(|rows|) && Bind(processingTime).Some?
    && forall i :: 0 <= i < |DB.RunRows(db)| ==> DB.RunRows(db)[i].runId != Text(runId)
  }

  /** The saved run row records the run id, the counts over `rows`, the
      status `completed` and the report directory. */
  predicate SavedRun(row: DB.RunRow, rows: seq<DB.StartupRow>, runId: string, reportPath: string) {
    && row.runId == Text(runId)
    && row.totalFound == Int(|rows|)
    && row.tier1 == Int(CountTier(rows, "Tier 1"))
    && row.tier2 == Int(CountTier(rows, "Tier 2"))
    && row.tier3 == Int(CountTier(rows, "Tier 3"))
    && row.status == Text("completed")
    && row.reportPath == Text(reportPath)
  }

  /** A completed run's report against the runs table of `before`: the
      run data counts the rows of the final table, and the run is saved,
      as one new row at the end, exactly when `run_metadata` accepts it;
      otherwise the runs table is unchanged. */
  predicate Reported(o: Outcome, before: DB.Backend, runId: string, processingTime: Json, reportPath: string) {
    && o.Completed?
    && Get(o.runData, "total_startups_found") == JNum(|DB.StartupRows(o.db)|)
    && Get(o.runData, "tier_1_count") == JNum(CountTier(DB.StartupRows(o.db), "Tier 1"))
    && Get(o.runData, "tier_2_count") == JNum(CountTier(DB.StartupRows(o.db), "Tier 2"))
    && Get(o.runData, "tier_3_count") == JNum(CountTier(DB.StartupRows(o.db), "Tier 3"))
    && (o.saved <==> RunAccepted(before, DB.StartupRows(o.db), runId, processingTime))
    && (o.saved ==>
          && |DB.RunRows(o.db)| == |DB.RunRows(before)| + 1
          && DB.RunRows(o.db)[..|DB.RunRows(before)|] == DB.RunRows(before)
          && SavedRun(DB.RunRows(o.db)[|DB.RunRows(before)|], DB.StartupRows(o.db), runId, reportPath))
    && (!o.saved ==> DB.RunRows(o.db) == DB.RunRows(before))
  }

  /** The report depends on `before` only through its runs table. */
  lemma ReportedAgainst(o: Outcome, a: DB.Backend, b: DB.Backend, runId: string, processingTime: Json,
                        reportPath: string)
    requires a.Online? == b.Online? && (a.Online? ==> a.store.runs == b.store.runs)
    requires Reported(o, a, runId, processingTime, reportPath)
    ensures Reported(o, b, runId, processingTime, reportPath)
  {
    assert DB.RunRows(a) == DB.RunRows(b);
  }

  /** `get_all_startups` returns every stored row, so counting over it
      counts over the table. */
  lemma AllStartupsCounts(db: DB.Backend)
    ensures var all, rows := DB.GetAllStartups(db), DB.StartupRows(db);
      && |all| == |rows|
      && CountTier(all, "Tier 1") == CountTier(rows, "Tier 1")
      && CountTier(all, "Tier 2") == CountTier(rows, "Tier 2")
      && CountTier(all, "Tier 3") == CountTier(rows, "Tier 3")
  {
    var all, rows := DB.GetAllStartups(db), DB.StartupRows(db);
    CountWherePermutation(all, rows, InTier("Tier 1"));
    CountWherePermutation(all, rows, InTier("Tier 2"));
    CountWherePermutation(all, rows, InTier("Tier 3"));
    assert |all| == |multiset(all)| == |multiset(rows)| == |rows|;
  }

  /** The run data built from `rows` binds exactly when the total fits in
      64 bits and the processing time binds. */
  lemma RunDataBinds(rows: seq<DB.StartupRow>, runId: string, processingTime: Json, reportPath: string)
    ensures var d := RunData(runId, |rows|, CountTier(rows, "Tier 1"), CountTier(rows, "Tier 2"),
                             CountTier(rows, "Tier 3"), processingTime, reportPath);
      DB.BindAll(DB.RunParams(d)).Some? <==> InInt64(|rows|) && Bind(processingTime).Some?
  {
    var d := RunData(runId, |rows|, CountTier(rows, "Tier 1"), CountTier(rows, "Tier 2"),
                     CountTier(rows, "Tier 3"), processingTime, reportPath);
    TierCountsBounded(rows);
    var ps := DB.RunParams(d);
    assert ps == [JStr(runId), JNum(|rows|), JNum(CountTier(rows, "Tier 1")),
                  JNum(CountTier(rows, "Tier 2")), JNum(CountTier(rows, "Tier 3")), processingTime,
                  JStr("completed"), JStr(reportPath)];
    if InInt64(|rows|) && Bind(processingTime).Some? {
      forall i | 0 <= i < |ps| ensures Bind(ps[i]).Some? {
        if 2 <= i <= 4 { assert ps[i].n <= |rows|; }
      }
    } else if !InInt64(|rows|) {
      assert Bind(ps[1]).None?;
    } else {
      assert Bind(ps[5]).None?;
    }
  }

  /** A run row holding the run data built from `rows` is the saved run
      for `rows`, and the data's run id is stored as text. */
  lemma RunDataSaved(rows: seq<DB.StartupRow>, runId: string, processingTime: Json, reportPath: string)
    ensures var d := RunData(runId, |rows|, CountTier(rows, "Tier 1"), CountTier(rows, "Tier 2"),
                             CountTier(rows, "Tier 3"), processingTime, reportPath);
      && DB.RunIdCell(d) == Some(Text(runId))
      && forall row :: DB.RunRowHolds(row, d) ==> SavedRun(row, rows, runId, reportPath)
  {
    TierCountsBounded(rows);
  }

  /** Everything after the loop: count the tiers over all stored rows and
      save the run. */
  function Finish(db: DB.Backend, stored: seq<nat>, runId: string, processingTime: Json,
                  reportPath: string, tick: nat): (o: Outcome)
    ensures o.Completed? && o.stored == stored
    ensures DB.StartupRows(o.db) == DB.StartupRows(db)
    ensures Reported(o, db, runId, processingTime, reportPath)
    ensures db.Online? && DB.Valid(db.store) ==> o.db.Online? && DB.Valid(o.db.store)
  {
    var all := DB.GetAllStartups(db);
    var rows := DB.StartupRows(db);
    AllStartupsCounts(db);
    var runData := RunData(runId, |all|, CountTier(all, "Tier 1"), CountTier(all, "Tier 2"), CountTier(all, "Tier 3"),
      processingTime, reportPath);
    RunDataBinds(rows, runId, processingTime, reportPath);
    RunDataSaved(rows, runId, processingTime, reportPath);
    var w := DB.InsertRunMetadata(db, runData, tick);
    RunInsertKeepsValid(db, runData, tick);
    Completed(w.db, stored, runData, w.ok)
  }

  /** The loop and everything after it, once both annotation maps have
      been extracted. */
  function MergeAndFinish(db: DB.Backend, parsed: seq<Json>, tiers: NameMap, fits: NameMap, runId: string,
                          processingTime: Json, reportPath: string, f: Foreign, tick: nat -> nat): (o: Outcome)
    ensures o.Aborted? <==> exists j :: 0 <= j < |parsed| && Raises(parsed[j])
    ensures Appended(DB.StartupRows(db), DB.StartupRows(o.db), o.stored, parsed, Builder(f, tiers, fits), f.dumps)
    ensures o.Completed? ==>
      Refused(db, DB.StartupRows(o.db), o.stored, parsed, 0, Builder(f, tiers, fits), f.dumps)
    ensures o.Aborted? ==> DB.RunRows(o.db) == DB.RunRows(db)
    ensures o.Completed? ==> Reported(o, db, runId, processingTime, reportPath)
    ensures db.Online? && DB.Valid(db.store) ==> o.db.Online? && DB.Valid(o.db.store)
  {
    var build := Builder(f, tiers, fits);
    var m := MergeFrom(db, parsed, 0, build, f.dumps, tick);
    MergeAbortsIff(db, parsed, 0, build, f.dumps, tick);
    MergeStores(db, parsed, 0, build, f.dumps, tick);
    MergeRefuses(db, parsed, 0, build, f.dumps, tick);
    MergeKeepsValid(db, parsed, 0, build, f.dumps, tick);
    if m.aborted then Aborted(m.db, m.stored)
    else
      var o := Finish(m.db, m.stored, runId, processingTime, reportPath, tick(|parsed|));
      ReportedAgainst(o, m.db, db, runId, processingTime, reportPath);
      o
  }

  /** `_process_and_save_results(result)`: the run's processing time and
      report directory are parameters. */
  function ProcessAndSaveResults(db: DB.Backend, result: string, runId: string, processingTime: Json,
                                 reportPath: string, f: Foreign, tick: nat -> nat): (o: Outcome)
    ensures var parsed := ParseStartupData(f.decode, result);
      o.Aborted? <==>
        || ExtractTierInfo(f.decode, result).None? || ExtractMarketFit(f.decode, result).None?
        || exists j :: 0 <= j < |parsed| && Raises(parsed[j])
    ensures ExtractTierInfo(f.decode, result).None? || ExtractMarketFit(f.decode, result).None? ==>
      o == Aborted(db, [])
    ensures var tiers, fits := ExtractTierInfo(f.decode, result), ExtractMarketFit(f.decode, result);
      tiers.Some? && fits.Some? ==>
      Appended(DB.StartupRows(db), DB.StartupRows(o.db), o.stored, ParseStartupData(f.decode, result),
               Builder(f, tiers.value, fits.value), f.dumps)
    ensures var tiers, fits := ExtractTierInfo(f.decode, result), ExtractMarketFit(f.decode, result);
      o.Completed? ==>
      Refused(db, DB.StartupRows(o.db), o.stored, ParseStartupData(f.decode, result), 0,
              Builder(f, tiers.value, fits.value), f.dumps)
    ensures o.Aborted? ==> DB.RunRows(o.db) == DB.RunRows(db)
    ensures o.Completed? ==> Reported(o, db, runId, processingTime, reportPath)
    ensures db.Online? && DB.Valid(db.store) ==> o.db.Online? && DB.Valid(o.db.store)
  {
    var tiers := ExtractTierInfo(f.decode, result);
    var fits := ExtractMarketFit(f.decode, result);
    if tiers.None? || fits.None? then Aborted(db, [])
    else MergeAndFinish(db, ParseStartupData(f.decode, result), tiers.value, fits.value, runId, processingTime,
                        reportPath, f, tick)
  }

  /** The summary printed and saved never counts more tiered rows than
      rows. */
  lemma RunSummaryConsistent(db: DB.Backend, result: string, runId: string, processingTime: Json,
                             reportPath: string, f: Foreign, tick: nat -> nat)
    ensures var o := ProcessAndSaveResults(db, result, runId, processingTime, reportPath, f, tick);
      o.Completed? ==>
      && o.runData["tier_1_count"].JNum? && o.runData["tier_2_count"].JNum? && o.runData["tier_3_count"].JNum?
      && o.runData["tier_1_count"].n + o.runData["tier_2_count"].n + o.runData["tier_3_count"].n
           <= o.runData["total_startups_found"].n
  {
    var o := ProcessAndSaveResults(db, result, runId, processingTime, reportPath, f, tick);
    if o.Completed? {
      ReportedCounts(o, db, runId, processingTime, reportPath);
    }
  }

  lemma ReportedCounts(o: Outcome, before: DB.Backend, runId: string, processingTime: Json, reportPath: string)
    requires Reported(o, before, runId, processingTime, reportPath)
    ensures && o.runData["tier_1_count"].JNum? && o.runData["tier_2_count"].JNum? && o.runData["tier_3_count"].JNum?
            && o.runData["tier_1_count"].n + o.runData["tier_2_count"].n + o.runData["tier_3_count"].n
                 <= o.runData["total_startups_found"].n
  {
    TierCountsBounded(DB.StartupRows(o.db));
  }
}
