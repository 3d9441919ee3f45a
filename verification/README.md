# Startup research pipeline: a Dafny model of the ingestion core

The research pipeline runs a crew of LLM agents. One agent discovers
startups, one scores how well each fits the Indian market, and one assigns
each startup a tier. The crew produces a single result string. This project
models what happens to that string afterwards, and the small pure helpers
and in-memory state around it:

- **Extraction** (`extraction.dfy`).
  - `parse_startup_data` sniffs whether the text looks like JSON and then
    unwraps it into a record list by key priority.
  - When the text does not look like JSON, it falls back to the greedy
    regular expression `\[.*\]|\{.*\}`. That expression is specified and
    verified as a string search.
  - `extract_tier_info` and `extract_market_fit` index records by name.
    Later duplicates overwrite earlier ones, and an unhashable name raises.
- **Merge** (`pipeline.dfy`).
  - `generate_run_id` formats the run id.
  - The record-building loop of `_process_and_save_results` merges the tier
    and fit annotations into each record. A map hit takes precedence over an
    embedded value, and the embedded value is used only on a miss.
  - The hash stored with each record is Python's `hash(name)`.
  - The loop inserts each record, counts the tiers, and saves the run
    metadata. An exception anywhere aborts the rest of the run.
- **Dedup helpers** (`dedup.dfy`).
  - `generate_hash`, `fuzzy_match` and `is_duplicate`.
  - The seen-title and recency filter of `search_recent_startups`.
- **Entity store** (`database.dfy`, `queries.dfy`, `sorting.dfy`,
  `sqlvalues.dfy`).
  - The `startups` and `run_metadata` SQLite tables, with their NOT NULL
    and UNIQUE constraints and column affinities.
  - Inserts are all-or-nothing.
  - Queries use ORDER BY / LIMIT / LIKE / GROUP BY. SQLite leaves the order
    of tied rows unspecified, so these queries promise only a permutation in
    key order.
  - The `print_table` column projection.
- **AgentTracker** (`tracker.dfy`). A map-based state machine (start, log
  tool use, end) and the summary it writes.
- **Schemas** (`schemas.dfy`). The pydantic models as parsers. Each
  top-level parser (StartupBasic through ReportSummary) accepts exactly the
  objects that satisfy a declarative validity condition. Every field of an
  accepted record is either the input's value or, when the key is missing,
  the declared default.

The model's shared vocabulary:

- **JSON values.** JSON is a datatype, and a Python dict is a
  `map<string, Json>`. Python `or` uses JSON truthiness: null, false, 0, "",
  [] and {} are falsy.
- **Dict keys.** A dict key is a hashable value. `True` and `1` are the same
  key, and a list or dict used as a key raises `TypeError`.
- **Library calls.** These are function-typed parameters: `json.loads`,
  `json.dumps`, Python's `hash`, MD5, and the matching-block count of
  difflib's `SequenceMatcher`. Their only properties are the ones stated as
  preconditions where a lemma needs one.
- **Time.** The SQLite clock is an integer. Each write advances it by a
  caller-supplied `tick`, and ties are allowed. The tracker's timestamps and
  the run's date-time are parameters.

Two behaviours of the code are easy to miss, and the model keeps both:

- **Tier annotations.** When a record has no tier annotation and no
  embedded `primary_tier`, its embedded `secondary_tiers` is dropped, not
  stored (crew_orchestration.py:245-247). `Pipeline.TierPrecedence` states
  this.
- **Unhashable names.** An unhashable name aborts the whole run, not just
  one record. This holds both in the annotation maps and in the merge loop,
  because the `except` at line 292 is outside the loop. Inserts made before
  the failing record remain, and no run metadata is written.
  `Pipeline.ProcessAndSaveResults` states this.

## Model

| member | source | states |
|---|---|---|
| `Strings.StripStartsWith` | src/crew_orchestration.py:50 | the stripped text starts with `[` or `{` iff that character is the first non-whitespace character |
| `JsonValues.OrTruthy` | src/crew_orchestration.py:224 | Python `a or b` is truthy iff either operand is, and yields one of the two operands |
| `JsonValues.KeyOfEquality` | src/crew_orchestration.py:242 | two hashable names are the same dict key iff they are equal, or one is a bool and the other the matching 0/1 |
| `Extraction.SearchFrom` | src/crew_orchestration.py:68 | the greedy match starts at the leftmost opener that has a matching closer after it, and ends at the last such closer; no match iff no opener has one |
| `Extraction.ParseStartupData` | src/crew_orchestration.py:47-80 | JSON-looking text is decoded only as a whole, with no fallback scan. Other text decodes the regex span. A decode failure or non-list yields `[]`, never an error |
| `Extraction.UnwrapIsFirstShape` | src/crew_orchestration.py:52-76 | direct unwrapping uses priority list, startups, top_opportunities, opportunities, then a named object. Fragment unwrapping uses list, startups, top_opportunities, then any object with no name check |
| `Extraction.IndexItemsKeys` | src/crew_orchestration.py:88-96 | the list loop raises iff some dict element's name is unhashable; otherwise the keys are exactly the dict elements' names, and non-dicts are ignored |
| `Extraction.IndexItemsLastWins` | src/crew_orchestration.py:89-96 | the entry stored under a name is the one built from the last element carrying it |
| `Extraction.ObjectEntries` | src/crew_orchestration.py:97-100 | from an object, exactly the dict-valued entries are kept, verbatim |
| `Extraction.ExtractAnnotations` | src/crew_orchestration.py:82-127 | non-JSON text and undecodable text give `{}`. An object goes through the object path and a list through the list path. A failure occurs only for a decoded list |
| `Pipeline.GenerateRunId` | src/crew_orchestration.py:41-43 | the run id has length 19, starts with `run_`, and has `_` between the date and time digits |
| `Pipeline.RunIdRoundTrip` | src/crew_orchestration.py:43 | the date and time can be read back from the run id |
| `Pipeline.RunIdInjective` | src/crew_orchestration.py:43 | distinct date-times give distinct run ids |
| `Pipeline.BuildStartupData` | src/crew_orchestration.py:224-255 | the record keeps the name. Its hash is `hash(name)`, a function of the name alone. website and founded_date fall back to url and date. The tier and score keys are present iff a map hit or an embedded value exists |
| `Pipeline.TierPrecedence` | src/crew_orchestration.py:241-247 | a map hit wins over the embedded tier. The embedded tier is used only on a miss. Otherwise both tier fields read as null, so the record's own secondary_tiers is dropped |
| `Pipeline.ScorePrecedence` | src/crew_orchestration.py:249-255 | the stored score is the map's score on a hit, else the record's own score, defaulting to 0 |
| `Pipeline.RecordCells` | src/crew_orchestration.py:229-238 | an inserted record never has a NULL name, and its hash column holds the decimal text of `hash(name)`, a 64-bit value |
| `Pipeline.Visit` | src/crew_orchestration.py:220-259 | one record raises iff its truthy name is unhashable. Non-dicts and falsy names insert nothing. An insertable record is inserted iff the table is writable, its values bind, its name is non-null, and its name and non-null hash are new. The one added row holds that record's values, earlier rows are kept, and store validity is kept |
| `Pipeline.MergeFrom` | src/crew_orchestration.py:219-259 | inserted_count ≤ the number of records left. The inserted records' indices are increasing and lie in the remaining range. Writability and the runs table are kept |
| `Pipeline.MergeStores` | src/crew_orchestration.py:219-259 | the loop appends exactly one row per inserted record, in input order, after the old rows. Each row holds the values of the record at its index, so inserted_count equals the rows added |
| `Pipeline.MergeRefuses` | src/crew_orchestration.py:220-259 | the old rows stay in front. When the loop runs to the end, every insertable record that was not stored was refused: it cannot be inserted at all, or its name or non-null hash is in the final table |
| `Pipeline.MergeKeepsValid` | src/crew_orchestration.py:219-259 | the loop keeps a well-formed store well-formed |
| `Pipeline.MergeAbortsIff` | src/crew_orchestration.py:220-226 | the loop stops early iff some remaining record has an unhashable truthy name |
| `Pipeline.MergeAndFinish` | src/crew_orchestration.py:219-282 | given both annotation maps, the run aborts iff some record raises. Either way, the rows added are exactly the inserted records' rows, in order. On completion every other insertable record was refused. The counts describe the final table, and the run row is saved iff `run_metadata` accepts it. An abort writes no run row |
| `Pipeline.TierCountsBounded` | src/crew_orchestration.py:265-267 | the three tier counts sum to at most the number of rows |
| `Pipeline.Finish` | src/crew_orchestration.py:263-282 | the total and tier counts are taken over all stored rows, whatever the read order. The run is saved iff the runs table is writable, the total fits 64 bits, the processing time binds, and the run id is new. A saved run is one new row holding the run id, the total, the three tier counts, status completed and the report path. Otherwise run rows are unchanged |
| `Pipeline.RunDataBinds` | src/crew_orchestration.py:271-282 | the run data binds iff the total fits 64 bits and the processing time binds |
| `Pipeline.RunDataSaved` | src/crew_orchestration.py:271-282 | any run row holding the run data records the run id, the counts over the rows, status completed and the report path |
| `Pipeline.ProcessAndSaveResults` | src/crew_orchestration.py:197-293 | the run aborts iff an annotation map or some record raises. With both maps, the rows added are exactly the inserted records' rows, in input order. An abort keeps the rows inserted so far and writes no run row. On completion every other insertable record was refused, the counts describe the final table, and the run row is saved iff `run_metadata` accepts it |
| `Pipeline.RunSummaryConsistent` | src/crew_orchestration.py:265-276 | whenever the run completes, tier_1 + tier_2 + tier_3 ≤ total_startups_found in the saved run data |
| `Seqs.CountWherePermutation` | src/crew_orchestration.py:264-267 | counting rows with a property gives the same result in any row order |
| `Dedup.HashIgnoresCase` | src/tools/search_tools.py:124-127 | names and websites differing only in ASCII case give the same hash |
| `Dedup.HashOfLowered` | src/tools/search_tools.py:126 | hashing already-lowered fields gives the same digest |
| `Dedup.HashHasNoSeparator` | src/tools/search_tools.py:126 | with no separator, `generate_hash(a+b, c, d) == generate_hash(a, b+c, d)` |
| `Dedup.HashIsHexDigest` | src/tools/search_tools.py:127 | assuming MD5 yields 32 hex digits, so does the hash |
| `Dedup.FuzzyMatchIgnoresCase` | src/tools/search_tools.py:130-133 | matching the strings is the same as matching their lower-cased forms |
| `Dedup.FuzzyMatchReflexive` | src/tools/search_tools.py:130-133 | a string matches itself at every threshold ≤ 1, assuming a string fully matches itself |
| `Dedup.FuzzyMatchMonotone` | src/tools/search_tools.py:133 | a match at threshold t is a match at every lower threshold |
| `Dedup.TechStartupMatchesWithSpace` | tests/test_utilities.py:41-45 | with 11 matching characters, "TechStartup" and "Tech Startup" match at 0.85 |
| `Dedup.TechStartupAgainstTech` | tests/test_utilities.py:112-123 | with 4 matching characters, "TechStartup" and "Tech" fail at 0.95 and match at 0.30 |
| `Dedup.IsDuplicate` | src/tools/search_tools.py:136-142 | true iff some entry matches and every entry before it has a string name. An error iff some entry lacks a string name and no entry before it matches. false only when every entry is readable and none matches |
| `Dedup.IsDuplicateIsExists` | src/tools/search_tools.py:138-142 | on readable entries, `is_duplicate` is exactly "some entry's name (missing → "") matches" |
| `Dedup.IsDuplicateEmpty` | src/tools/search_tools.py:138-142 | an empty reference list is never a duplicate |
| `Dedup.IsDuplicateOrderIndependent` | src/tools/search_tools.py:138-142 | the answer does not depend on the order of the reference list |
| `Dedup.KeepRecentSound` | src/tools/search_tools.py:238-246 | every kept hit is recent, comes from the input and had an unseen title. Kept titles are pairwise distinct, and the input order is kept |
| `Dedup.KeepRecentComplete` | src/tools/search_tools.py:238-246 | every recent hit whose title was not seen before gets its title kept; a rejected hit does not block its title |
| `Dedup.KeepRecentAppend` | src/tools/search_tools.py:223-246 | filtering a concatenation is filtering the first part, then the second with the first part's kept titles marked seen |
| `Dedup.FilterBatch` | src/tools/search_tools.py:238-246 | the inner loop extends the kept list by the reference filter of the batch and keeps `seen` equal to the kept titles |
| `Dedup.FilterRecent` | src/tools/search_tools.py:223-246 | the loop over all queries equals one reference scan of all hits, and the final seen set is exactly the kept titles |
| `SqlValues.Bind` | src/database/db.py:108-122 | binding fails exactly for lists, dicts and integers outside 64 bits; a 64-bit integer binds as itself, a bool as 1/0, a string as text and None as NULL |
| `SqlValues.TextAffinity` | src/database/db.py:38-42 | a TEXT column stores an integer as decimal text that reads back as that integer, and every other value unchanged |
| `SqlValues.IntegerAffinity` | src/database/db.py:43 | an INTEGER column keeps integers and NULL as given. Text becomes an integer iff, with SQLite whitespace trimmed, it is a decimal integer literal that fits 64 bits; otherwise it stays text |
| `SqlValues.IntegerAffinityReadsDecimal` | src/database/db.py:43 | the decimal text of a 64-bit integer, with any whitespace padding, is stored as that integer |
| `SqlValues.SqlTrimPadded` | src/database/db.py:43 | trimming a literal padded with whitespace gives back the literal, when the literal itself has no padding |
| `SqlValues.LikeIsSubstring` | src/utils/db_queries.py:125-126 | for a wildcard-free c, `LIKE '%c%'` is ASCII case-insensitive substring search |
| `Database.InitDatabase` | src/database/db.py:27-88 | an offline store fails. Otherwise both tables exist afterwards, an existing table keeps its rows, and a new one is empty |
| `Database.InitIdempotent` | src/database/db.py:34-74 | running initialisation twice is the same as once, and keeps every row |
| `Database.BindAll` | src/database/db.py:108-122 | the parameters bind iff each one binds, position by position |
| `Database.InsertStartup` | src/database/db.py:91-132 | a failed insert leaves the store unchanged. Success occurs iff the store is online, every parameter binds, the name is non-null and new, and the hash is null or new. Success appends exactly one row |
| `Database.AppendStartup` | src/database/db.py:102-129 | the INSERT of a bound row succeeds iff the row breaks no NOT NULL or UNIQUE constraint. It then appends exactly that row; otherwise nothing changes |
| `Database.InsertedRow` | src/database/db.py:97-122 | the new row holds the bound name, hash, website, score (0 when absent), tier and JSON-encoded secondary_tiers, and both timestamps are the new clock |
| `Database.RowHoldsColumns` | src/database/db.py:97-122 | a row that holds a record has each of the record's values in its column, bound and converted by the column's affinity, with the score defaulting to 0 |
| `Database.InsertPreservesValid` | src/database/db.py:36-51 | an insert keeps names non-null and unique, non-null hashes unique, ids increasing and below the AUTOINCREMENT counter, and no row stamped after the clock |
| `Database.InsertTwice` | src/database/db.py:91-132 | a second identical insert is refused, so the row count grows by 1, not 2 |
| `Database.NullHashesMayRepeat` | src/database/db.py:51 | two records with NULL hashes and different names can both be stored |
| `Database.GetAllStartups` | src/database/db.py:135-146 | returns a permutation of all rows in non-increasing created_at order |
| `Database.RowsInTier` | src/database/db.py:155 | keeps exactly the rows whose primary_tier equals the tier (NULL never does), with their multiplicities |
| `Database.GetStartupsByTier` | src/database/db.py:149-163 | exactly the tier's rows, each as often as stored, in non-increasing score order |
| `Database.InsertReadBack` | src/database/db.py:102-141 | after a successful insert, a row with the inserted name, website, score and tier is read back |
| `Database.InsertRunMetadata` | src/database/db.py:166-194 | saving succeeds iff the runs table exists, every value binds, and the run_id is non-null and new. A refusal leaves the store unchanged. Success appends exactly one run row holding the data and leaves the startups unchanged |
| `Database.InsertedRunRow` | src/database/db.py:172-187 | the saved run row holds the run data, and its run_date and created_at are the advanced clock |
| `Database.GetLatestRun` | src/database/db.py:197-208 | none iff there are no runs; otherwise a stored run with maximal run_date |
| `Sorting.SortDesc` | src/database/db.py:140 | ORDER BY … DESC yields a permutation in non-increasing key order |
| `Sorting.TopBy` | src/utils/db_queries.py:95-98 | ORDER BY … DESC LIMIT k yields a sub-multiset of min(k, n) rows (all rows for negative k) in non-increasing order. No omitted row sorts above the last one kept |
| `Queries.GetAllStartups` | src/utils/db_queries.py:29-50 | the same permutation and created_at ordering as the store-level query |
| `Queries.GetStartupsByTier` | src/utils/db_queries.py:52-79 | the same filter, multiplicities and score ordering as the store-level query |
| `Queries.GetTopStartups` | src/utils/db_queries.py:81-108 | a limit outside 64 bits cannot be bound and yields []. Otherwise the result is min(limit, row count) stored rows, or all rows for a negative limit, ordered by score, and every omitted row scores ≤ the last returned |
| `Queries.RowsLike` | src/utils/db_queries.py:125 | keeps exactly the rows whose category matches the LIKE pattern, with their multiplicities |
| `Queries.GetStartupsByCategory` | src/utils/db_queries.py:110-137 | exactly the rows whose category matches `%c%`, each as often as stored, in non-increasing score order |
| `Queries.CategoryIsSubstringSearch` | src/utils/db_queries.py:124-127 | for a wildcard-free category, a row is returned iff it is stored and its category contains c, ignoring ASCII case |
| `Queries.FindGroup` | src/utils/db_queries.py:154-155 | finds the group of a key, or shows no group has it |
| `Queries.Tally` | src/utils/db_queries.py:154-159 | GROUP BY: distinct keys, each with its number of occurrences, every key covered, counts summing to the row count |
| `Queries.StatsOf` | src/utils/db_queries.py:149-167 | the total is the row count. The tier and category groups are exact tallies, NULL included. top_countries lists min(10, number of distinct countries) distinct countries, each with its exact count, in non-increasing count. No omitted country has more rows than the last one listed |
| `Queries.GetStatistics` | src/utils/db_queries.py:139-183 | no statistics iff the store or table is unavailable; otherwise the statistics of the stored rows, including the top-10 country ranking |
| `Queries.TierGroupsCoverAllRows` | src/utils/db_queries.py:150-155 | the tier counts sum to the total, and every row's tier has exactly one group |
| `Queries.TopCountriesSize` | src/utils/db_queries.py:166 | LIMIT 10 over the country groups keeps min(10, number of distinct countries) groups |
| `Queries.TopCountriesDistinct` | src/utils/db_queries.py:166-167 | each country appears at most once in top_countries |
| `Queries.TopCountriesCounts` | src/utils/db_queries.py:166-167 | each listed country carries its exact, positive row count |
| `Queries.TopCountriesLargest` | src/utils/db_queries.py:166 | no country left out has more rows than the last one listed |
| `Queries.AvailableColumns` | src/utils/db_queries.py:200 | the requested columns present in the first row, in requested order, each as often as it was requested |
| `Queries.PrintTable` | src/utils/db_queries.py:185-209 | no table iff the input is empty. The headers are the requested (or default) columns present in the first row, in order, each as often as requested. Every data row has one cell per header, holding "N/A" where the row lacks the key |
| `Tracker.NewTracker` | src/utils/agent_tracker.py:15-19 | a new tracker has no agents, and its output directory ends in `run_` + run id |
| `Tracker.StartAgent` | src/utils/agent_tracker.py:21-33 | creates or overwrites the entry with status "running", no tools, no output and the given start time; a falsy input becomes {}. Other agents and the first-start order are kept |
| `Tracker.Truncate` | src/utils/agent_tracker.py:44 | a logged output is a prefix of its string form: the whole string when it has at most 500 characters, else exactly its first 500 |
| `Tracker.LogToolUsage` | src/utils/agent_tracker.py:35-48 | an unknown agent leaves the state unchanged. Otherwise exactly one record is appended to that agent's tools, holding the tool name, input, timestamp and the truncated output, and nothing else changes |
| `Tracker.EndAgent` | src/utils/agent_tracker.py:50-59 | an unknown agent leaves the state unchanged. Otherwise output, status and end time are set, and nothing else in the record or the tracker changes |
| `Tracker.ToolsSurviveEnd` | src/utils/agent_tracker.py:21-58 | start, log one tool, end with the default status: the agent ends "completed" with that one tool |
| `Tracker.SummaryOf` | src/utils/agent_tracker.py:82-88 | the agents list is the start order, which names exactly the tracked agents, and total_agents is both its length and the number of tracked agents |
| `Schemas.RequiredStr` | src/models/schemas.py:10 | a required string is accepted iff present as a string |
| `Schemas.OptionalStr` | src/models/schemas.py:11 | an optional string is accepted iff missing, null or a string. It yields the text when a string is given, else None |
| `Schemas.StrListOrEmpty` | src/models/schemas.py:44 | a list-of-strings field is accepted iff missing or a list of strings. It yields the given texts element by element, or [] when missing |
| `Schemas.OptionalStrList` | src/models/schemas.py:89 | an optional list is accepted iff missing, null or a list of strings. It yields None when missing or null, else the given texts element by element |
| `Schemas.IntField` | src/models/schemas.py:39 | an integer field is accepted iff present and within its bounds, or missing with a default, which it then takes |
| `Schemas.ParseStartupBasic` | src/models/schemas.py:8-18 | an accepted record has name, category and country as strings and keeps them. Each optional field holds the given text, or None when missing or null |
| `Schemas.ParseStartupBasicIffValid` | src/models/schemas.py:10-18 | a StartupBasic is accepted iff name, category and country are strings and the six optional fields are missing, null or strings |
| `Schemas.BasicDefaults` | src/models/schemas.py:11-18 | missing optional fields default to None |
| `Schemas.ParseStartupMarketAnalysis` | src/models/schemas.py:36-45 | accepted iff the five required strings are present, india_fit_score is an integer in 0..100, and both lists are missing or string lists. Every field keeps the input's value, and the lists default to [] |
| `Schemas.MarketAnalysisScoreBound` | src/models/schemas.py:39 | with the other fields valid, the analysis is accepted iff 0 ≤ india_fit_score ≤ 100 |
| `Schemas.ParseStartupTierAnalysis` | src/models/schemas.py:62-69 | accepted iff the five required strings are present and secondary_tiers is missing or a string list. Every field keeps the input's value, and secondary_tiers defaults to [] |
| `Schemas.ParseStartupComplete` | src/models/schemas.py:84-91 | a record is accepted iff it is a valid StartupBasic, india_fit_score is a missing or in-range integer, and the five optional analysis fields are missing, null or well typed. An accepted score lies in 0..100, keeps the input's value and defaults to 0. Each optional analysis field holds the given value, or None when missing or null |
| `Schemas.CompleteIsBasic` | src/models/schemas.py:84 | every valid StartupComplete is a valid StartupBasic with the same basic fields |
| `Schemas.ParseCompletes` | src/models/schemas.py:134 | a list of records is accepted iff every element is an object that parses. The result holds each element's parse, in order |
| `Schemas.CompleteListOrEmpty` | src/models/schemas.py:134 | top_opportunities is accepted iff missing or an array of valid StartupComplete objects. It yields each element's parse in order, or [] when missing |
| `Schemas.ParseReportSummary` | src/models/schemas.py:126-139 | accepted iff run_id is a string, the total an integer, each tier count missing or an integer, top_opportunities missing or a list of valid StartupComplete objects, and the four string lists missing or string lists. Every field keeps the input's value; counts default to 0 and lists to [] |
| `Schemas.MinimalReportSummary` | src/models/schemas.py:128-133 | a run id and a total alone make a valid summary, with every other field at its default |

## Left out

- The agents themselves are left out: the crew kickoff and `run`, agent and task definitions, and tool wrappers. They are framework calls and prompts with no stateable behaviour.
- Network I/O is left out: `search_google`, `search_product_hunt`, `fetch_url_content` and `search_web_fallback`. So is building the search queries from `datetime.now`. The recency filter takes each query's hits, the year and the two month names as parameters.
- Email, output files and console output are left out: `email_tools.py`, `output_manager.py`, `save_agent_report`, `print_agent_summary`, `print_statistics`, `tabulate` rendering and logging. `PrintTable` stops at the header and cell grid.
- The `knowledge_base` table is left out; the modelled code never reads or writes it.
- The connection context manager and environment-variable configuration are left out. The only setting used is the 0.85 threshold.
- `json.loads`, `json.dumps`, MD5, difflib's matching count and Python's `hash` are parameters, so the model never computes them. Their properties appear as preconditions where a lemma needs them. This includes the 32-hex-digit digest and the matching counts of the test vectors. The ratio is not assumed symmetric. Per-process hash randomisation is covered because `hash` is an arbitrary function.
- Floating point is left out: processing_time_seconds is an opaque JSON value, and the average score (AVG) is not computed. The fuzzy ratio is compared as the exact fraction 2·M/(|a|+|b|) against a rational threshold.
- JSON numbers are integers. The REAL column affinity and float scores are not modelled.
- String lower-casing covers ASCII letters only. Python's full Unicode `str.lower` is not modelled. Whitespace stripping uses Python's full `str.isspace` set.
- Pydantic's lax coercions are not modelled: a numeric string is not read as an int, and a bool is not read as an int. The datetime fields (`run_date`, `generated_at`, `timestamp`) and the three agent-output wrappers (`DiscoveryOutput`, `MarketAnalysisOutput`, `TierAnalysisOutput`) are not modelled either. The pipeline does not use any of these.
- The tracker's clock and the `str()` rendering of tool outputs are parameters. `__init__`'s `mkdir` is not modelled, and the output root directory is a parameter.
- The pipeline reads the startups back with the store-level `get_all_startups`. Its failure path, which returns `[]`, is covered by the offline store, whose row list is empty.
- Pipeline.GenerateRunId: requires a year of at least 1000. `strftime('%Y')` pads years below 1000 differently across platforms.
- Pipeline.BuildStartupData: does not state the description, category, country, source and source_url fields. Each is copied with `.get`, exactly as the body shows.
- SqlValues.IntegerAffinity: only decimal integer literals, with optional sign and whitespace, become integers. SQLite also converts integral real literals such as "85.0" or "8.5e1", and stores REAL for other numeric text. This project has no floating point, so that text stays text.
- processing_time_seconds is stored as bound, without the REAL affinity.
- Database.GetLatestRun: compares run_date as an integer clock. SQLite's TIMESTAMP text ordering agrees with it only for equal-width timestamps.
