/** The SQLite store of src/database/db.py: the `startups` and
    `run_metadata` tables, their NOT NULL and UNIQUE constraints,
    all-or-nothing inserts that report success as a bool, and the queries
    over the stored rows. Time is a non-decreasing integer clock that each
    write advances by a caller-chosen `tick` (zero gives a tie). */
module Database {
  import opened Options
  import opened Strings
  import opened JsonValues
  import opened SqlValues
  import opened Sorting

  /** One row of `startups`. */
  datatype StartupRow = StartupRow(
    id: nat,
    name: Cell,
    website: Cell,
    description: Cell,
    category: Cell,
    foundedDate: Cell,
    country: Cell,
    fitScore: Cell,
    fitAnalysis: Cell,
    primaryTier: Cell,
    secondaryTiers: Cell,
    source: Cell,
    sourceUrl: Cell,
    createdAt: int,
    updatedAt: int,
    hash: Cell)

  /** One row of `run_metadata`. */
  datatype RunRow = RunRow(
    id: nat,
    runId: Cell,
    runDate: int,
    totalFound: Cell,
    tier1: Cell,
    tier2: Cell,
    tier3: Cell,
    processingTime: Cell,
    status: Cell,
    reportPath: Cell,
    createdAt: int)

  /** A table's rows in insertion order, and the next AUTOINCREMENT id. */
  datatype Table<R> = Table(rows: seq<R>, nextId: nat)

  /** The database file; a table is `None` until `init_database` creates it. */
  datatype Store = Store(startups: Option<Table<StartupRow>>, runs: Option<Table<RunRow>>, clock: int)

  /** The database as a connection sees it: it opens, or it fails. */
  datatype Backend = Online(store: Store) | Offline

  /** A freshly created, empty database file. */
  const NewStore: Store := Store(None, None, 0)

  /** The outcome of an INSERT: success flag and the resulting database. */
  datatype WriteResult = WriteResult(ok: bool, db: Backend)

  /** The stored `startups` rows, or none when the table cannot be read. */
  function StartupRows(db: Backend): seq<StartupRow> {
    if db.Online? && db.store.startups.Some? then db.store.startups.value.rows else []
  }

  /** The stored `run_metadata` rows, or none when the table cannot be read. */
  function RunRows(db: Backend): seq<RunRow> {
    if db.Online? && db.store.runs.Some? then db.store.runs.value.rows else []
  }

  // ---------------------------------------------------------------------
  // init_database
  // ---------------------------------------------------------------------

  /** `CREATE TABLE IF NOT EXISTS` for both tables; `None` when the
      connection fails (the error is re-raised). */
  function InitDatabase(db: Backend): (r: Option<Backend>)
    ensures db.Offline? <==> r.None?
    ensures r.Some? ==> r.value.Online? && r.value.store.startups.Some? && r.value.store.runs.Some?
    ensures r.Some? && db.store.startups.Some? ==> r.value.store.startups == db.store.startups
    ensures r.Some? && db.store.runs.Some? ==> r.value.store.runs == db.store.runs
    ensures r.Some? && db.store.startups.None? ==> StartupRows(r.value) == []
    ensures r.Some? && db.store.runs.None? ==> RunRows(r.value) == []
  {
    match db
    case Offline => None
    case Online(st) =>
      var s := if st.startups.None? then Some(Table([], 1)) else st.startups;
      var m := if st.runs.None? then Some(Table([], 1)) else st.runs;
      Some(Online(Store(s, m, st.clock)))
  }

  /** Running `init_database` again changes nothing, and on a populated
      store it leaves every row in place. */
  lemma InitIdempotent(db: Backend)
    requires db.Online?
    ensures InitDatabase(db).Some?
    ensures InitDatabase(InitDatabase(db).value) == InitDatabase(db)
    ensures db.store.startups.Some? ==> StartupRows(InitDatabase(db).value) == StartupRows(db)
    ensures db.store.runs.Some? ==> RunRows(InitDatabase(db).value) == RunRows(db)
  {
  }

  // ---------------------------------------------------------------------
  // insert_startup
  // ---------------------------------------------------------------------

  /** The `secondary_tiers` parameter: a list is stored as its JSON text
      (`json.dumps`), anything else as given. */
  function SecondaryTiersParam(data: PyDict, dumps: Json -> string): Json {
    var st := Get(data, "secondary_tiers");
    if st.JArr? then JStr(dumps(st)) else st
  }

  /** The thirteen INSERT parameters, in column order. `india_fit_score`
      defaults to 0 only when the key is absent. */
  function StartupParams(data: PyDict, dumps: Json -> string): (ps: seq<Json>)
    ensures |ps| == 13
  {
    [Get(data, "name"), Get(data, "website"), Get(data, "description"), Get(data, "category"),
     Get(data, "founded_date"), Get(data, "country"), GetOr(data, "india_fit_score", JNum(0)),
     Get(data, "india_fit_analysis"), Get(data, "primary_tier"), SecondaryTiersParam(data, dumps),
     Get(data, "source"), Get(data, "source_url"), Get(data, "hash")]
  }

  /** Binds every parameter; `None` if any one cannot be bound. */
  function BindAll(ps: seq<Json>): (r: Option<seq<Cell>>)
    ensures r.Some? <==> forall i :: 0 <= i < |ps| ==> Bind(ps[i]).Some?
    ensures r.Some? ==> |r.value| == |ps| && forall i :: 0 <= i < |ps| ==> r.value[i] == Bind(ps[i]).value
  {
    if |ps| == 0 then Some([])
    else match (Bind(ps[0]), BindAll(ps[1..]))
      case (Some(c), Some(cs)) => Some([c] + cs)
      case _ => None
  }

  /** Each bound parameter after its column's affinity: `india_fit_score`
      is INTEGER, the others TEXT. */
  function Affine(cs: seq<Cell>): (r: seq<Cell>)
    requires |cs| == 13
    ensures |r| == 13
  {
    [TextAffinity(cs[0]), TextAffinity(cs[1]), TextAffinity(cs[2]), TextAffinity(cs[3]),
     TextAffinity(cs[4]), TextAffinity(cs[5]), IntegerAffinity(cs[6]), TextAffinity(cs[7]),
     TextAffinity(cs[8]), TextAffinity(cs[9]), TextAffinity(cs[10]), TextAffinity(cs[11]),
     TextAffinity(cs[12])]
  }

  /** The thirteen inserted columns of a row, in parameter order. */
  function Columns(row: StartupRow): (r: seq<Cell>)
    ensures |r| == 13
  {
    [row.name, row.website, row.description, row.category, row.foundedDate, row.country, row.fitScore,
     row.fitAnalysis, row.primaryTier, row.secondaryTiers, row.source, row.sourceUrl, row.hash]
  }

  /** The row the INSERT would store. */
  function StartupRowOf(cs: seq<Cell>, id: nat, stamp: int): (row: StartupRow)
    requires |cs| == 13
    ensures Columns(row) == Affine(cs)
  {
    var a := Affine(cs);
    StartupRow(id, a[0], a[1], a[2], a[3], a[4], a[5], a[6], a[7], a[8], a[9], a[10], a[11], stamp, stamp, a[12])
  }

  /** A value bound into a TEXT column, as stored; `None` when it cannot
      be bound. */
  function TextColumn(j: Json): (r: Option<Cell>)
    ensures r.None? <==> Bind(j).None?
    ensures r.Some? ==> !r.value.Int? && (r.value.Null? <==> j.JNull?)
  {
    match Bind(j)
    case None => None
    case Some(c) => Some(TextAffinity(c))
  }

  /** A value bound into an INTEGER column, as stored. */
  function IntColumn(j: Json): (r: Option<Cell>)
    ensures r.None? <==> Bind(j).None?
    ensures j.JNum? && InInt64(j.n) ==> r == Some(Int(j.n))
  {
    match Bind(j)
    case None => None
    case Some(c) => Some(IntegerAffinity(c))
  }

  /** `name` is stored exactly as this cell. */
  function NameCell(data: PyDict): Option<Cell> {
    TextColumn(Get(data, "name"))
  }

  /** `hash` is stored exactly as this cell. */
  function HashCell(data: PyDict): Option<Cell> {
    TextColumn(Get(data, "hash"))
  }

  /** The row breaks `name NOT NULL UNIQUE` or `hash UNIQUE`. UNIQUE
      ignores NULLs, so any number of rows may have a NULL hash. */
  predicate Violates(rows: seq<StartupRow>, row: StartupRow) {
    || row.name.Null?
    || (exists i :: 0 <= i < |rows| && rows[i].name == row.name)
    || (!row.hash.Null? && exists i :: 0 <= i < |rows| && rows[i].hash == row.hash)
  }

  /** The connection opens and the `startups` table exists. */
  predicate Writable(db: Backend) {
    db.Online? && db.store.startups.Some?
  }

  /** What `insert_startup` needs of a record regardless of the rows
      already stored: a writable table, every value bindable, and a name
      that is not NULL. */
  predicate Admissible(db: Backend, data: PyDict, dumps: Json -> string) {
    Writable(db) && BindAll(StartupParams(data, dumps)).Some? && NameCell(data) != Some(Null)
  }

  /** No stored row has the record's name, nor its hash unless that is NULL. */
  predicate Fresh(rows: seq<StartupRow>, data: PyDict) {
    && (forall i :: 0 <= i < |rows| ==> Some(rows[i].name) != NameCell(data))
    && (HashCell(data) == Some(Null) || forall i :: 0 <= i < |rows| ==> Some(rows[i].hash) != HashCell(data))
  }

  /** A record that clashes with some rows clashes with any longer table
      that starts with them. */
  lemma FreshPrefix(rows: seq<StartupRow>, more: seq<StartupRow>, data: PyDict)
    requires |rows| <= |more| && more[..|rows|] == rows
    requires Fresh(more, data)
    ensures Fresh(rows, data)
  {
    forall i | 0 <= i < |rows| ensures rows[i] == more[i] {
      assert more[..|rows|][i] == more[i];
    }
  }

  /** What the INSERT stores for a record: every parameter bound and given
      its column's affinity; `None` when one cannot be bound. */
  function StoredColumns(data: PyDict, dumps: Json -> string): Option<seq<Cell>> {
    match BindAll(StartupParams(data, dumps))
    case None => None
    case Some(cs) => Some(Affine(cs))
  }

  /** `row` holds the values of `data` as the INSERT stores them. */
  predicate RowHolds(row: StartupRow, data: PyDict, dumps: Json -> string) {
    StoredColumns(data, dumps) == Some(Columns(row))
  }

  /** Column by column: a row that holds a record has each of the record's
      values, bound and converted by the column's affinity. */
  lemma RowHoldsColumns(row: StartupRow, data: PyDict, dumps: Json -> string)
    requires RowHolds(row, data, dumps)
    ensures Some(row.name) == TextColumn(Get(data, "name"))
    ensures Some(row.website) == TextColumn(Get(data, "website"))
    ensures Some(row.description) == TextColumn(Get(data, "description"))
    ensures Some(row.category) == TextColumn(Get(data, "category"))
    ensures Some(row.foundedDate) == TextColumn(Get(data, "founded_date"))
    ensures Some(row.country) == TextColumn(Get(data, "country"))
    ensures Some(row.fitScore) == IntColumn(GetOr(data, "india_fit_score", JNum(0)))
    ensures Some(row.fitAnalysis) == TextColumn(Get(data, "india_fit_analysis"))
    ensures Some(row.primaryTier) == TextColumn(Get(data, "primary_tier"))
    ensures Some(row.secondaryTiers) == TextColumn(SecondaryTiersParam(data, dumps))
    ensures Some(row.source) == TextColumn(Get(data, "source"))
    ensures Some(row.sourceUrl) == TextColumn(Get(data, "source_url"))
    ensures Some(row.hash) == TextColumn(Get(data, "hash"))
  {
    var ps := StartupParams(data, dumps);
    var cs := BindAll(ps).value;
    assert forall k :: 0 <= k < 13 ==> cs[k] == Bind(ps[k]).value;
    assert Columns(row) == Affine(cs);
  }

  /** The two UNIQUE columns of a row that holds a record. */
  lemma RowHoldsKeys(row: StartupRow, data: PyDict, dumps: Json -> string)
    requires RowHolds(row, data, dumps)
    ensures Some(row.name) == NameCell(data) && Some(row.hash) == HashCell(data)
  {
    var ps := StartupParams(data, dumps);
    var cs := BindAll(ps).value;
    assert cs[0] == Bind(ps[0]).value && cs[12] == Bind(ps[12]).value;
    assert Columns(row) == Affine(cs);
  }

  /** A row carrying a record's name and hash breaks a constraint exactly
      when the name is NULL or the record is not fresh. */
  lemma ViolatesIffStale(rows: seq<StartupRow>, row: StartupRow, data: PyDict)
    requires Some(row.name) == NameCell(data) && Some(row.hash) == HashCell(data)
    ensures Violates(rows, row) <==> NameCell(data) == Some(Null) || !Fresh(rows, data)
  {
  }

  /** The row built from a record's bound parameters holds the record,
      its name and its hash. */
  lemma RowOfHolds(data: PyDict, dumps: Json -> string, cs: seq<Cell>, id: nat, stamp: int)
    requires BindAll(StartupParams(data, dumps)) == Some(cs)
    ensures var row := StartupRowOf(cs, id, stamp);
      && RowHolds(row, data, dumps) && Some(row.name) == NameCell(data) && Some(row.hash) == HashCell(data)
  {
    var row := StartupRowOf(cs, id, stamp);
    assert RowHolds(row, data, dumps);
    RowHoldsKeys(row, data, dumps);
  }

  /** `insert_startup`: adds one row and returns true, or returns false and
      changes nothing (duplicate, NULL name, unbindable value, missing
      table, or no connection). */
  function InsertStartup(db: Backend, data: PyDict, dumps: Json -> string, tick: nat): (r: WriteResult)
    ensures !r.ok ==> r.db == db
    ensures r.ok ==> r.db.Online? && r.db.store.startups.Some?
    ensures r.ok ==> |StartupRows(r.db)| == |StartupRows(db)| + 1
    ensures r.ok ==> StartupRows(r.db)[..|StartupRows(db)|] == StartupRows(db)
    ensures r.ok ==> RowHolds(StartupRows(r.db)[|StartupRows(db)|], data, dumps)
    ensures r.db.Online? == db.Online? && (db.Online? ==> r.db.store.runs == db.store.runs)
    ensures RunRows(r.db) == RunRows(db)
    ensures r.ok <==> Admissible(db, data, dumps) && Fresh(StartupRows(db), data)
  {
    match db
    case Offline => WriteResult(false, db)
    case Online(st) =>
      match st.startups
      case None => WriteResult(false, db)
      case Some(t) =>
        match BindAll(StartupParams(data, dumps))
        case None => WriteResult(false, db)
        case Some(cs) =>
          var row := StartupRowOf(cs, t.nextId, st.clock + tick);
          RowOfHolds(data, dumps, cs, t.nextId, st.clock + tick);
          ViolatesIffStale(t.rows, row, data);
          AppendStartup(db, row, tick)
  }

  /** The INSERT of one built row into a writable table: refused when it
      breaks a constraint, else appended with the clock advanced. */
  function AppendStartup(db: Backend, row: StartupRow, tick: nat): (r: WriteResult)
    requires Writable(db)
    ensures r.ok <==> !Violates(StartupRows(db), row)
    ensures !r.ok ==> r.db == db
    ensures r.ok ==> Writable(r.db) && StartupRows(r.db) == StartupRows(db) + [row]
    ensures r.db.Online? && r.db.store.runs == db.store.runs
  {
    var st := db.store;
    var t := st.startups.value;
    if Violates(t.rows, row) then WriteResult(false, db)
    else WriteResult(true, Online(st.(startups := Some(Table(t.rows + [row], t.nextId + 1)), clock := st.clock + tick)))
  }

  /** A successful insert stamps its row with the advanced clock. */
  lemma InsertedRow(db: Backend, data: PyDict, dumps: Json -> string, tick: nat)
    requires InsertStartup(db, data, dumps, tick).ok
    ensures var rows := StartupRows(InsertStartup(db, data, dumps, tick).db);
      var row := rows[|rows| - 1];
      && RowHolds(row, data, dumps)
      && row.createdAt == row.updatedAt == db.store.clock + tick
      && row.id == db.store.startups.value.nextId
  {
  }

  /** Store invariant: names are present and unique, non-NULL hashes are
      unique, ids are below the AUTOINCREMENT counter and distinct, and no
      row is stamped later than the clock. */
  ghost predicate Valid(st: Store) {
    st.startups.Some? ==>
      var rows := st.startups.value.rows;
      && (forall i :: 0 <= i < |rows| ==> !rows[i].name.Null?)
      && (forall i, j :: 0 <= i < j < |rows| ==> rows[i].name != rows[j].name)
      && (forall i, j :: 0 <= i < j < |rows| && !rows[i].hash.Null? ==> rows[i].hash != rows[j].hash)
      && (forall i :: 0 <= i < |rows| ==> rows[i].id < st.startups.value.nextId)
      && (forall i, j :: 0 <= i < j < |rows| ==> rows[i].id < rows[j].id)
      && (forall i :: 0 <= i < |rows| ==> rows[i].createdAt <= st.clock)
  }

  lemma InsertPreservesValid(db: Backend, data: PyDict, dumps: Json -> string, tick: nat)
    requires db.Online? && Valid(db.store)
    ensures InsertStartup(db, data, dumps, tick).db.Online?
    ensures Valid(InsertStartup(db, data, dumps, tick).db.store)
  {
    var r := InsertStartup(db, data, dumps, tick);
    if r.ok {
      var cs := BindAll(StartupParams(data, dumps)).value;
      var row := StartupRowOf(cs, db.store.startups.value.nextId, db.store.clock + tick);
      assert r == AppendStartup(db, row, tick);
      AppendPreservesValid(db, row, tick);
    } else {
      assert r.db == db;
    }
  }

  lemma AppendPreservesValid(db: Backend, row: StartupRow, tick: nat)
    requires Writable(db) && Valid(db.store)
    requires row.id == db.store.startups.value.nextId && row.createdAt == db.store.clock + tick
    ensures AppendStartup(db, row, tick).db.Online?
    ensures Valid(AppendStartup(db, row, tick).db.store)
  {
    if !Violates(db.store.startups.value.rows, row) {
      AppendKeepsValid(db.store, row, tick);
    }
  }

  /** Appending a row that breaks no constraint, stamped with the advanced
      clock and the next id, keeps the store valid. */
  lemma AppendKeepsValid(st: Store, row: StartupRow, tick: nat)
    requires Valid(st) && st.startups.Some?
    requires !Violates(st.startups.value.rows, row)
    requires row.id == st.startups.value.nextId && row.createdAt == st.clock + tick
    ensures var t := st.startups.value;
      Valid(st.(startups := Some(Table(t.rows + [row], t.nextId + 1)), clock := st.clock + tick))
  {
  }

  /** Inserting the same record twice: the second attempt is refused and
      the table grew by exactly one row. */
  lemma InsertTwice(db: Backend, data: PyDict, dumps: Json -> string, t1: nat, t2: nat)
    requires InsertStartup(db, data, dumps, t1).ok
    ensures var once := InsertStartup(db, data, dumps, t1).db;
      && !InsertStartup(once, data, dumps, t2).ok
      && |StartupRows(InsertStartup(once, data, dumps, t2).db)| == |StartupRows(db)| + 1
  {
    var once := InsertStartup(db, data, dumps, t1).db;
    var rows := StartupRows(once);
    InsertedRow(db, data, dumps, t1);
    assert Some(rows[|rows| - 1].name) == NameCell(data);
  }

  /** UNIQUE ignores NULL: a record without a hash is not refused because
      an earlier record also had none. */
  lemma NullHashesMayRepeat(db: Backend, a: PyDict, b: PyDict, dumps: Json -> string, t1: nat, t2: nat)
    requires InsertStartup(db, a, dumps, t1).ok
    requires HashCell(a) == Some(Null) && HashCell(b) == Some(Null)
    requires BindAll(StartupParams(b, dumps)).Some? && NameCell(b) != Some(Null) && NameCell(b) != NameCell(a)
    requires forall i :: 0 <= i < |StartupRows(db)| ==> Some(StartupRows(db)[i].name) != NameCell(b)
    ensures InsertStartup(InsertStartup(db, a, dumps, t1).db, b, dumps, t2).ok
  {
    var once := InsertStartup(db, a, dumps, t1).db;
    InsertedRow(db, a, dumps, t1);
    var rows := StartupRows(once);
    var row := rows[|rows| - 1];
    assert rows == StartupRows(db) + [row];
    assert Some(row.name) != NameCell(b);
    FreshAppend(StartupRows(db), row, b);
    assert Admissible(once, b, dumps);
  }

  /** A record fresh against `rows` stays fresh after a row that holds
      neither its name nor its non-NULL hash. */
  lemma FreshAppend(rows: seq<StartupRow>, row: StartupRow, data: PyDict)
    requires Fresh(rows, data)
    requires Some(row.name) != NameCell(data)
    requires HashCell(data) == Some(Null) || Some(row.hash) != HashCell(data)
    ensures Fresh(rows + [row], data)
  {
    var more := rows + [row];
    assert forall i :: 0 <= i < |rows| ==> more[i] == rows[i];
  }

  // ---------------------------------------------------------------------
  // Queries
  // ---------------------------------------------------------------------

  function CreatedKey(r: StartupRow): Cell {
    Int(r.createdAt)
  }

  function ScoreKey(r: StartupRow): Cell {
    r.fitScore
  }

  /** `SELECT * FROM startups ORDER BY created_at DESC`; `[]` on any error. */
  function GetAllStartups(db: Backend): (r: seq<StartupRow>)
    ensures multiset(r) == multiset(StartupRows(db))
    ensures SortedDesc(r, CreatedKey)
  {
    SortDesc(StartupRows(db), CreatedKey)
  }

  /** The rows whose `primary_tier` equals `tier`, in table order. */
  function RowsInTier(rows: seq<StartupRow>, tier: string): (r: seq<StartupRow>)
    ensures forall x :: x in r <==> x in rows && x.primaryTier == Text(tier)
    ensures forall x :: x in r ==> multiset(r)[x] == multiset(rows)[x]
  {
    if |rows| == 0 then []
    else
      assert rows == [rows[0]] + rows[1..];
      (if rows[0].primaryTier == Text(tier) then [rows[0]] else []) + RowsInTier(rows[1..], tier)
  }

  /** `SELECT * FROM startups WHERE primary_tier = ? ORDER BY
      india_fit_score DESC`; NULL never equals the parameter. */
  function GetStartupsByTier(db: Backend, tier: string): (r: seq<StartupRow>)
    ensures forall x :: x in r <==> x in StartupRows(db) && x.primaryTier == Text(tier)
    ensures forall x :: x in r ==> multiset(r)[x] == multiset(StartupRows(db))[x]
    ensures SortedDesc(r, ScoreKey)
  {
    var sel := RowsInTier(StartupRows(db), tier);
    var r := SortDesc(sel, ScoreKey);
    assert forall x :: x in r <==> x in multiset(sel);
    r
  }

  /** A row read back after a successful insert carries the inserted name,
      website, score and tier. */
  lemma InsertReadBack(db: Backend, data: PyDict, dumps: Json -> string, tick: nat,
                       name: string, website: string, score: int, tier: string)
    requires InsertStartup(db, data, dumps, tick).ok
    requires Get(data, "name") == JStr(name) && Get(data, "website") == JStr(website)
    requires GetOr(data, "india_fit_score", JNum(0)) == JNum(score) && InInt64(score)
    requires Get(data, "primary_tier") == JStr(tier)
    ensures exists x :: (x in GetAllStartups(InsertStartup(db, data, dumps, tick).db)
      && x.name == Text(name) && x.website == Text(website)
      && x.fitScore == Int(score) && x.primaryTier == Text(tier))
  {
    var after := InsertStartup(db, data, dumps, tick).db;
    var rows := StartupRows(after);
    InsertedRow(db, data, dumps, tick);
    var x := rows[|rows| - 1];
    assert x in multiset(rows);
    assert x in GetAllStartups(after);
  }

  // ---------------------------------------------------------------------
  // run_metadata
  // ---------------------------------------------------------------------

  /** The eight INSERT parameters, with the source's defaults. */
  function RunParams(data: PyDict): (ps: seq<Json>)
    ensures |ps| == 8
  {
    [Get(data, "run_id"), GetOr(data, "total_startups_found", JNum(0)), GetOr(data, "tier_1_count", JNum(0)),
     GetOr(data, "tier_2_count", JNum(0)), GetOr(data, "tier_3_count", JNum(0)),
     Get(data, "processing_time_seconds"), GetOr(data, "status", JStr("completed")), Get(data, "report_path")]
  }

  function RunRowOf(cs: seq<Cell>, id: nat, stamp: int): RunRow
    requires |cs| == 8
  {
    RunRow(id, TextAffinity(cs[0]), stamp, IntegerAffinity(cs[1]), IntegerAffinity(cs[2]),
      IntegerAffinity(cs[3]), IntegerAffinity(cs[4]), cs[5], TextAffinity(cs[6]), TextAffinity(cs[7]), stamp)
  }

  /** `run_id` is stored exactly as this cell. */
  function RunIdCell(data: PyDict): Option<Cell> {
    TextColumn(Get(data, "run_id"))
  }

  /** The connection opens and the `run_metadata` table exists. */
  predicate RunsWritable(db: Backend) {
    db.Online? && db.store.runs.Some?
  }

  /** `row` holds the values of `data` as the run INSERT stores them; the
      processing time is kept as bound (REAL affinity is not modelled). */
  predicate RunRowHolds(row: RunRow, data: PyDict) {
    && Some(row.runId) == TextColumn(Get(data, "run_id"))
    && Some(row.totalFound) == IntColumn(GetOr(data, "total_startups_found", JNum(0)))
    && Some(row.tier1) == IntColumn(GetOr(data, "tier_1_count", JNum(0)))
    && Some(row.tier2) == IntColumn(GetOr(data, "tier_2_count", JNum(0)))
    && Some(row.tier3) == IntColumn(GetOr(data, "tier_3_count", JNum(0)))
    && Some(row.processingTime) == Bind(Get(data, "processing_time_seconds"))
    && Some(row.status) == TextColumn(GetOr(data, "status", JStr("completed")))
    && Some(row.reportPath) == TextColumn(Get(data, "report_path"))
  }

  lemma RunRowOfHolds(data: PyDict, cs: seq<Cell>, id: nat, stamp: int)
    requires BindAll(RunParams(data)) == Some(cs)
    ensures RunRowHolds(RunRowOf(cs, id, stamp), data)
  {
    var ps := RunParams(data);
    assert forall k :: 0 <= k < 8 ==> cs[k] == Bind(ps[k]).value;
  }

  /** `insert_run_metadata`: adds one row and returns true, or returns
      false and changes nothing (NULL or repeated `run_id`, unbindable
      value, missing table, or no connection). */
  function InsertRunMetadata(db: Backend, data: PyDict, tick: nat): (r: WriteResult)
    ensures !r.ok ==> r.db == db
    ensures r.ok <==>
      && RunsWritable(db) && BindAll(RunParams(data)).Some? && RunIdCell(data) != Some(Null)
      && forall i :: 0 <= i < |RunRows(db)| ==> Some(RunRows(db)[i].runId) != RunIdCell(data)
    ensures r.ok ==> |RunRows(r.db)| == |RunRows(db)| + 1 && RunRows(r.db)[..|RunRows(db)|] == RunRows(db)
    ensures r.ok ==> RunRowHolds(RunRows(r.db)[|RunRows(db)|], data)
    ensures r.ok ==> StartupRows(r.db) == StartupRows(db)
  {
    match db
    case Offline => WriteResult(false, db)
    case Online(st) =>
      match st.runs
      case None => WriteResult(false, db)
      case Some(t) =>
        match BindAll(RunParams(data))
        case None => WriteResult(false, db)
        case Some(cs) =>
          var stamp := st.clock + tick;
          var row := RunRowOf(cs, t.nextId, stamp);
          RunRowOfHolds(data, cs, t.nextId, stamp);
          assert Some(row.runId) == RunIdCell(data);
          assert RunRows(db) == t.rows;
          if row.runId.Null? || exists i :: 0 <= i < |t.rows| && t.rows[i].runId == row.runId then
            WriteResult(false, db)
          else
            WriteResult(true, Online(st.(runs := Some(Table(t.rows + [row], t.nextId + 1)), clock := stamp)))
  }

  /** A saved run is dated by the advanced clock. */
  lemma InsertedRunRow(db: Backend, data: PyDict, tick: nat)
    requires InsertRunMetadata(db, data, tick).ok
    ensures var rows := RunRows(InsertRunMetadata(db, data, tick).db);
      var row := rows[|rows| - 1];
      && RunRowHolds(row, data)
      && row.runDate == row.createdAt == db.store.clock + tick
  {
  }

  function RunDateKey(r: RunRow): Cell {
    Int(r.runDate)
  }

  /** `SELECT * FROM run_metadata ORDER BY run_date DESC LIMIT 1`. */
  function GetLatestRun(db: Backend): (r: Option<RunRow>)
    ensures r.None? <==> |RunRows(db)| == 0
    ensures r.Some? ==> r.value in RunRows(db)
    ensures r.Some? ==> forall x :: x in RunRows(db) ==> x.runDate <= r.value.runDate
  {
    var sorted := SortDesc(RunRows(db), RunDateKey);
    if |sorted| == 0 then None
    else
      assert sorted[0] in multiset(RunRows(db));
      assert forall x :: x in RunRows(db) ==> x.runDate <= sorted[0].runDate by {
        forall x | x in RunRows(db) ensures x.runDate <= sorted[0].runDate {
          assert x in multiset(sorted);
          var j :| 0 <= j < |sorted| && sorted[j] == x;
          if j > 0 {
            assert CellLe(RunDateKey(sorted[j]), RunDateKey(sorted[0]));
          }
        }
      }
      Some(sorted[0])
  }
}
