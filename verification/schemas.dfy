/** The pydantic models of src/models/schemas.py as parsers from a JSON
    object to a record: a required field must be present with the declared
    type, an optional one may be missing or null, and a defaulted one takes
    its default when missing. Keys the model does not declare are ignored.
    Values are checked strictly (no string-to-number coercion), and the
    `datetime` fields are not modelled. */
module Schemas {
  import opened Options
  import opened JsonValues

  /** A validation outcome; a failure names the first offending field. */
  datatype Result<+T> = Success(value: T) | Failure(field: string) {
    predicate IsFailure() {
      Failure?
    }

    function PropagateFailure<U>(): Result<U>
      requires Failure?
    {
      Failure(field)
    }

    function Extract(): T
      requires Success?
    {
      value
    }
  }

  // ---------------------------------------------------------------------
  // Field kinds
  // ---------------------------------------------------------------------

  /** `str = Field(...)`. */
  predicate IsStr(d: PyDict, k: string) {
    k in d && d[k].JStr?
  }

  function RequiredStr(d: PyDict, k: string): (r: Result<string>)
    ensures r.Success? <==> IsStr(d, k)
    ensures r.Success? ==> r.value == d[k].s
  {
    if k in d && d[k].JStr? then Success(d[k].s) else Failure(k)
  }

  /** `Optional[str] = None`. */
  predicate IsOptStr(d: PyDict, k: string) {
    k !in d || d[k].JNull? || d[k].JStr?
  }

  /** The value an accepted optional string field yields: the text when a
      string is given, `None` when the key is missing or null. */
  predicate OptStrFrom(o: Option<string>, d: PyDict, k: string) {
    if k in d && d[k].JStr? then o == Some(d[k].s) else o == None
  }

  function OptionalStr(d: PyDict, k: string): (r: Result<Option<string>>)
    ensures r.Success? <==> IsOptStr(d, k)
    ensures r.Success? ==> (r.value.Some? <==> k in d && d[k].JStr?)
    ensures r.Success? && r.value.Some? ==> r.value.value == d[k].s
    ensures r.Success? ==> OptStrFrom(r.value, d, k)
  {
    if k !in d || d[k].JNull? then Success(None)
    else if d[k].JStr? then Success(Some(d[k].s))
    else Failure(k)
  }

  predicate AllStr(items: seq<Json>) {
    forall i :: 0 <= i < |items| ==> items[i].JStr?
  }

  function Strs(items: seq<Json>): (r: seq<string>)
    requires AllStr(items)
    ensures |r| == |items| && forall i :: 0 <= i < |items| ==> r[i] == items[i].s
  {
    if |items| == 0 then [] else [items[0].s] + Strs(items[1..])
  }

  /** `xs` holds the texts of `items`, element by element. */
  predicate TextsOf(xs: seq<string>, items: seq<Json>) {
    |xs| == |items| && forall i :: 0 <= i < |items| ==> items[i].JStr? && xs[i] == items[i].s
  }

  /** `List[str] = Field(default_factory=list)`: null is not a list. */
  predicate IsStrList(d: PyDict, k: string) {
    k !in d || (d[k].JArr? && AllStr(d[k].items))
  }

  /** The value an accepted list field yields: the given texts in order, or
      the empty list when the key is missing. */
  predicate StrListFrom(xs: seq<string>, d: PyDict, k: string) {
    if k in d then d[k].JArr? && TextsOf(xs, d[k].items) else xs == []
  }

  function StrListOrEmpty(d: PyDict, k: string): (r: Result<seq<string>>)
    ensures r.Success? <==> IsStrList(d, k)
    ensures r.Success? && k !in d ==> r.value == []
    ensures r.Success? && k in d ==> |r.value| == |d[k].items|
    ensures r.Success? ==> StrListFrom(r.value, d, k)
  {
    if k !in d then Success([])
    else if d[k].JArr? && AllStr(d[k].items) then Success(Strs(d[k].items))
    else Failure(k)
  }

  /** `Optional[List[str]] = None`. */
  predicate IsOptStrList(d: PyDict, k: string) {
    k !in d || d[k].JNull? || (d[k].JArr? && AllStr(d[k].items))
  }

  /** The value an accepted optional list field yields. */
  predicate OptStrListFrom(o: Option<seq<string>>, d: PyDict, k: string) {
    if k in d && d[k].JArr? then o.Some? && TextsOf(o.value, d[k].items) else o == None
  }

  function OptionalStrList(d: PyDict, k: string): (r: Result<Option<seq<string>>>)
    ensures r.Success? <==> IsOptStrList(d, k)
    ensures r.Success? ==> (r.value.Some? <==> k in d && d[k].JArr?)
    ensures r.Success? ==> OptStrListFrom(r.value, d, k)
  {
    if k !in d || d[k].JNull? then Success(None)
    else if d[k].JArr? && AllStr(d[k].items) then Success(Some(Strs(d[k].items)))
    else Failure(k)
  }

  /** `int = Field(...)` or, with a default, `int = Field(default=...)`,
      with optional bounds `ge=lo, le=hi`. */
  predicate IsInt(d: PyDict, k: string, default: Option<int>, lo: Option<int>, hi: Option<int>) {
    if k !in d then default.Some?
    else
      && d[k].JNum?
      && (lo.Some? ==> lo.value <= d[k].n)
      && (hi.Some? ==> d[k].n <= hi.value)
  }

  function IntField(d: PyDict, k: string, default: Option<int>, lo: Option<int>, hi: Option<int>): (r: Result<int>)
    ensures r.Success? <==> IsInt(d, k, default, lo, hi)
    ensures r.Success? && k !in d ==> r.value == default.value
    ensures r.Success? && k in d ==> r.value == d[k].n
  {
    if k !in d then
      if default.Some? then Success(default.value) else Failure(k)
    else if !d[k].JNum? then Failure(k)
    else if lo.Some? && d[k].n < lo.value then Failure(k)
    else if hi.Some? && d[k].n > hi.value then Failure(k)
    else Success(d[k].n)
  }

  /** `ge=0, le=100`. */
  const ScoreMin: int := 0
  const ScoreMax: int := 100

  // ---------------------------------------------------------------------
  // StartupBasic
  // ---------------------------------------------------------------------

  datatype StartupBasic = StartupBasic(
    name: string, website: Option<string>, description: Option<string>, category: string,
    foundedDate: Option<string>, country: string, founderInfo: Option<string>,
    source: Option<string>, sourceUrl: Option<string>)

  const BasicOptional: seq<string> :=
    ["website", "description", "founded_date", "founder_info", "source", "source_url"]

  /** Name, category and country are required strings; the other six
      fields are optional strings. */
  predicate ValidBasic(d: PyDict) {
    && IsStr(d, "name") && IsStr(d, "category") && IsStr(d, "country")
    && forall k :: k in BasicOptional ==> IsOptStr(d, k)
  }

  function ParseStartupBasic(d: PyDict): (r: Result<StartupBasic>)
    ensures r.Success? ==> IsStr(d, "name") && IsStr(d, "category") && IsStr(d, "country")
    ensures r.Success? ==> r.value.name == d["name"].s && r.value.category == d["category"].s && r.value.country == d["country"].s
    ensures r.Success? ==>
      && OptStrFrom(r.value.website, d, "website") && OptStrFrom(r.value.description, d, "description")
      && OptStrFrom(r.value.foundedDate, d, "founded_date") && OptStrFrom(r.value.founderInfo, d, "founder_info")
      && OptStrFrom(r.value.source, d, "source") && OptStrFrom(r.value.sourceUrl, d, "source_url")
  {
    var name :- RequiredStr(d, "name");
    var website :- OptionalStr(d, "website");
    var description :- OptionalStr(d, "description");
    var category :- RequiredStr(d, "category");
    var foundedDate :- OptionalStr(d, "founded_date");
    var country :- RequiredStr(d, "country");
    var founderInfo :- OptionalStr(d, "founder_info");
    var source :- OptionalStr(d, "source");
    var sourceUrl :- OptionalStr(d, "source_url");
    Success(StartupBasic(name, website, description, category, foundedDate, country, founderInfo, source, sourceUrl))
  }

  /** The parser accepts exactly the valid objects. */
  lemma ParseStartupBasicIffValid(d: PyDict)
    ensures ParseStartupBasic(d).Success? <==> ValidBasic(d)
  {
    if ValidBasic(d) {
      assert forall i :: 0 <= i < |BasicOptional| ==> IsOptStr(d, BasicOptional[i]);
    }
    if ParseStartupBasic(d).Success? {
      forall k | k in BasicOptional ensures IsOptStr(d, k) {
      }
    }
  }

  /** Optional fields that are missing or null default to `None`. */
  lemma BasicDefaults(d: PyDict)
    requires ParseStartupBasic(d).Success?
    ensures var b := ParseStartupBasic(d).value;
      && ((("website" !in d) || d["website"].JNull?) ==> b.website.None?)
      && (("description" !in d) ==> b.description.None?)
      && (("founded_date" !in d) ==> b.foundedDate.None?)
      && (("founder_info" !in d) ==> b.founderInfo.None?)
      && (("source" !in d) ==> b.source.None?)
      && (("source_url" !in d) ==> b.sourceUrl.None?)
  {
  }

  // ---------------------------------------------------------------------
  // StartupMarketAnalysis
  // ---------------------------------------------------------------------

  datatype StartupMarketAnalysis = StartupMarketAnalysis(
    startupName: string, indiaFitScore: int, marketDemand: string, competitionAnalysis: string,
    regulatoryConsiderations: string, culturalFit: string, recommendedAdaptations: seq<string>,
    barriers: seq<string>)

  /** Five required strings, a required score in 0..100 and two string
      lists that may be missing. */
  predicate ValidMarketAnalysis(d: PyDict) {
    && IsStr(d, "startup_name")
    && IsInt(d, "india_fit_score", None, Some(ScoreMin), Some(ScoreMax))
    && IsStr(d, "market_demand") && IsStr(d, "competition_analysis")
    && IsStr(d, "regulatory_considerations") && IsStr(d, "cultural_fit")
    && IsStrList(d, "recommended_adaptations") && IsStrList(d, "barriers")
  }

  function ParseStartupMarketAnalysis(d: PyDict): (r: Result<StartupMarketAnalysis>)
    ensures r.Success? <==> ValidMarketAnalysis(d)
    ensures r.Success? ==> ScoreMin <= r.value.indiaFitScore <= ScoreMax
    ensures r.Success? ==> "india_fit_score" in d && d["india_fit_score"] == JNum(r.value.indiaFitScore)
    ensures r.Success? ==>
      && r.value.startupName == d["startup_name"].s
      && r.value.marketDemand == d["market_demand"].s
      && r.value.competitionAnalysis == d["competition_analysis"].s
      && r.value.regulatoryConsiderations == d["regulatory_considerations"].s
      && r.value.culturalFit == d["cultural_fit"].s
    ensures r.Success? && "recommended_adaptations" !in d ==> r.value.recommendedAdaptations == []
    ensures r.Success? && "barriers" !in d ==> r.value.barriers == []
    ensures r.Success? ==> StrListFrom(r.value.recommendedAdaptations, d, "recommended_adaptations")
    ensures r.Success? ==> StrListFrom(r.value.barriers, d, "barriers")
  {
    var startupName :- RequiredStr(d, "startup_name");
    var score :- IntField(d, "india_fit_score", None, Some(ScoreMin), Some(ScoreMax));
    var marketDemand :- RequiredStr(d, "market_demand");
    var competition :- RequiredStr(d, "competition_analysis");
    var regulatory :- RequiredStr(d, "regulatory_considerations");
    var cultural :- RequiredStr(d, "cultural_fit");
    var adaptations :- StrListOrEmpty(d, "recommended_adaptations");
    var barriers :- StrListOrEmpty(d, "barriers");
    Success(StartupMarketAnalysis(startupName, score, marketDemand, competition, regulatory, cultural, adaptations, barriers))
  }

  /** With the other fields valid, the score decides: accepted iff it is
      an integer in 0..100. */
  lemma MarketAnalysisScoreBound(d: PyDict, score: int)
    requires IsStr(d, "startup_name") && IsStr(d, "market_demand") && IsStr(d, "competition_analysis")
    requires IsStr(d, "regulatory_considerations") && IsStr(d, "cultural_fit")
    requires IsStrList(d, "recommended_adaptations") && IsStrList(d, "barriers")
    ensures ParseStartupMarketAnalysis(d["india_fit_score" := JNum(score)]).Success? <==> 0 <= score <= 100
  {
    var e := d["india_fit_score" := JNum(score)];
    assert IsStr(e, "startup_name") && IsStr(e, "market_demand") && IsStr(e, "competition_analysis");
    assert IsStr(e, "regulatory_considerations") && IsStr(e, "cultural_fit");
    assert IsStrList(e, "recommended_adaptations") && IsStrList(e, "barriers");
  }

  // ---------------------------------------------------------------------
  // StartupTierAnalysis
  // ---------------------------------------------------------------------

  datatype StartupTierAnalysis = StartupTierAnalysis(
    startupName: string, primaryTier: string, secondaryTiers: seq<string>, reasoning: string,
    marketSizeEstimate: string, potentialRevenueOpportunity: string)

  function ParseStartupTierAnalysis(d: PyDict): (r: Result<StartupTierAnalysis>)
    ensures r.Success? <==>
      && IsStr(d, "startup_name") && IsStr(d, "primary_tier") && IsStrList(d, "secondary_tiers")
      && IsStr(d, "reasoning") && IsStr(d, "market_size_estimate") && IsStr(d, "potential_revenue_opportunity")
    ensures r.Success? ==> r.value.primaryTier == d["primary_tier"].s && r.value.reasoning == d["reasoning"].s
    ensures r.Success? && "secondary_tiers" !in d ==> r.value.secondaryTiers == []
    ensures r.Success? ==>
      && r.value.startupName == d["startup_name"].s
      && r.value.marketSizeEstimate == d["market_size_estimate"].s
      && r.value.potentialRevenueOpportunity == d["potential_revenue_opportunity"].s
      && StrListFrom(r.value.secondaryTiers, d, "secondary_tiers")
  {
    var startupName :- RequiredStr(d, "startup_name");
    var primary :- RequiredStr(d, "primary_tier");
    var secondary :- StrListOrEmpty(d, "secondary_tiers");
    var reasoning :- RequiredStr(d, "reasoning");
    var size :- RequiredStr(d, "market_size_estimate");
    var revenue :- RequiredStr(d, "potential_revenue_opportunity");
    Success(StartupTierAnalysis(startupName, primary, secondary, reasoning, size, revenue))
  }

  // ---------------------------------------------------------------------
  // StartupComplete
  // ---------------------------------------------------------------------

  /** `StartupComplete(StartupBasic)`: the inherited fields plus the
      analysis fields. */
  datatype StartupComplete = StartupComplete(
    basic: StartupBasic, indiaFitScore: int, indiaFitAnalysis: Option<string>, primaryTier: Option<string>,
    secondaryTiers: Option<seq<string>>, marketSizeEstimate: Option<string>,
    potentialRevenueOpportunity: Option<string>)

  /** A valid `StartupBasic` whose score is an integer in 0..100 (0 when
      missing) and whose five other analysis fields are optional. */
  predicate ValidComplete(d: PyDict) {
    && ValidBasic(d)
    && IsInt(d, "india_fit_score", Some(0), Some(ScoreMin), Some(ScoreMax))
    && IsOptStr(d, "india_fit_analysis") && IsOptStr(d, "primary_tier")
    && IsOptStrList(d, "secondary_tiers")
    && IsOptStr(d, "market_size_estimate") && IsOptStr(d, "potential_revenue_opportunity")
  }

  function ParseStartupComplete(d: PyDict): (r: Result<StartupComplete>)
    ensures r.Success? <==> ValidComplete(d)
    ensures r.Success? ==> ScoreMin <= r.value.indiaFitScore <= ScoreMax
    ensures r.Success? && "india_fit_score" !in d ==> r.value.indiaFitScore == 0
    ensures r.Success? && "india_fit_score" in d ==> r.value.indiaFitScore == d["india_fit_score"].n
    ensures r.Success? && "primary_tier" !in d ==> r.value.primaryTier.None?
    ensures r.Success? && "secondary_tiers" !in d ==> r.value.secondaryTiers.None?
    ensures r.Success? ==>
      && OptStrFrom(r.value.indiaFitAnalysis, d, "india_fit_analysis")
      && OptStrFrom(r.value.primaryTier, d, "primary_tier")
      && OptStrListFrom(r.value.secondaryTiers, d, "secondary_tiers")
      && OptStrFrom(r.value.marketSizeEstimate, d, "market_size_estimate")
      && OptStrFrom(r.value.potentialRevenueOpportunity, d, "potential_revenue_opportunity")
  {
    ParseStartupBasicIffValid(d);
    var basic :- ParseStartupBasic(d);
    var score :- IntField(d, "india_fit_score", Some(0), Some(ScoreMin), Some(ScoreMax));
    var analysis :- OptionalStr(d, "india_fit_analysis");
    var primary :- OptionalStr(d, "primary_tier");
    var secondary :- OptionalStrList(d, "secondary_tiers");
    var size :- OptionalStr(d, "market_size_estimate");
    var revenue :- OptionalStr(d, "potential_revenue_opportunity");
    Success(StartupComplete(basic, score, analysis, primary, secondary, size, revenue))
  }

  /** Every valid `StartupComplete` is a valid `StartupBasic`, with the
      same basic fields. */
  lemma CompleteIsBasic(d: PyDict)
    requires ParseStartupComplete(d).Success?
    ensures ParseStartupBasic(d).Success?
    ensures ParseStartupComplete(d).value.basic == ParseStartupBasic(d).value
    ensures ValidBasic(d)
  {
    ParseStartupBasicIffValid(d);
  }

  // ---------------------------------------------------------------------
  // ReportSummary
  // ---------------------------------------------------------------------

  datatype ReportSummary = ReportSummary(
    runId: string, totalStartupsFound: int, tier1Count: int, tier2Count: int, tier3Count: int,
    topOpportunities: seq<StartupComplete>, trendingCategories: seq<string>, marketGaps: seq<string>,
    opportunities: seq<string>, recommendations: seq<string>)

  /** Parses each element of a `List[StartupComplete]`. */
  function ParseCompletes(items: seq<Json>): (r: Result<seq<StartupComplete>>)
    ensures r.Success? ==> |r.value| == |items|
    ensures r.Success? <==> forall i :: 0 <= i < |items| ==> items[i].JObj? && ParseStartupComplete(items[i].fields).Success?
    ensures r.Success? ==> forall i :: 0 <= i < |items| ==> items[i].JObj? && ParseStartupComplete(items[i].fields) == Success(r.value[i])
  {
    if |items| == 0 then Success([])
    else if !items[0].JObj? then Failure("top_opportunities")
    else
      var first :- ParseStartupComplete(items[0].fields);
      var rest :- ParseCompletes(items[1..]);
      Success([first] + rest)
  }

  /** A `List[StartupComplete]`: an array of objects, each a valid
      `StartupComplete`. */
  predicate IsCompleteList(j: Json) {
    j.JArr? && forall i :: 0 <= i < |j.items| ==> j.items[i].JObj? && ValidComplete(j.items[i].fields)
  }

  /** The value an accepted `List[StartupComplete]` field yields: each
      element parsed in order, or the empty list when the key is missing. */
  predicate CompletesFrom(xs: seq<StartupComplete>, d: PyDict, k: string) {
    if k in d then
      && d[k].JArr? && |xs| == |d[k].items|
      && forall i :: 0 <= i < |xs| ==> d[k].items[i].JObj? && ParseStartupComplete(d[k].items[i].fields) == Success(xs[i])
    else xs == []
  }

  /** `List[StartupComplete] = Field(default_factory=list)`. */
  function CompleteListOrEmpty(d: PyDict, k: string): (r: Result<seq<StartupComplete>>)
    ensures r.Success? <==> (k in d ==> IsCompleteList(d[k]))
    ensures r.Success? ==> CompletesFrom(r.value, d, k)
  {
    if k !in d then Success([])
    else if d[k].JArr? then ParseCompletes(d[k].items)
    else Failure(k)
  }

  /** A required run id and total, three counts defaulting to 0, and five
      lists that may be missing. */
  predicate ValidReportSummary(d: PyDict) {
    && IsStr(d, "run_id")
    && IsInt(d, "total_startups_found", None, None, None)
    && IsInt(d, "tier_1_count", Some(0), None, None)
    && IsInt(d, "tier_2_count", Some(0), None, None)
    && IsInt(d, "tier_3_count", Some(0), None, None)
    && ("top_opportunities" in d ==> IsCompleteList(d["top_opportunities"]))
    && IsStrList(d, "trending_categories") && IsStrList(d, "market_gaps")
    && IsStrList(d, "opportunities") && IsStrList(d, "recommendations")
  }

  /** The count an accepted `int = Field(default=0)` yields. */
  predicate CountFrom(n: int, d: PyDict, k: string) {
    if k in d then d[k] == JNum(n) else n == 0
  }

  function ParseReportSummary(d: PyDict): (r: Result<ReportSummary>)
    ensures r.Success? <==> ValidReportSummary(d)
    ensures r.Success? ==> IsStr(d, "run_id") && "total_startups_found" in d && d["total_startups_found"].JNum?
    ensures r.Success? ==> r.value.runId == d["run_id"].s && r.value.totalStartupsFound == d["total_startups_found"].n
    ensures r.Success? && "tier_1_count" !in d ==> r.value.tier1Count == 0
    ensures r.Success? && "tier_2_count" !in d ==> r.value.tier2Count == 0
    ensures r.Success? && "tier_3_count" !in d ==> r.value.tier3Count == 0
    ensures r.Success? ==>
      && CountFrom(r.value.tier1Count, d, "tier_1_count")
      && CountFrom(r.value.tier2Count, d, "tier_2_count")
      && CountFrom(r.value.tier3Count, d, "tier_3_count")
    ensures r.Success? && "top_opportunities" !in d ==> r.value.topOpportunities == []
    ensures r.Success? ==> CompletesFrom(r.value.topOpportunities, d, "top_opportunities")
    ensures r.Success? ==>
      && StrListFrom(r.value.trendingCategories, d, "trending_categories")
      && StrListFrom(r.value.marketGaps, d, "market_gaps")
      && StrListFrom(r.value.opportunities, d, "opportunities")
      && StrListFrom(r.value.recommendations, d, "recommendations")
  {
    var runId :- RequiredStr(d, "run_id");
    var total :- IntField(d, "total_startups_found", None, None, None);
    var t1 :- IntField(d, "tier_1_count", Some(0), None, None);
    var t2 :- IntField(d, "tier_2_count", Some(0), None, None);
    var t3 :- IntField(d, "tier_3_count", Some(0), None, None);
    var top :- CompleteListOrEmpty(d, "top_opportunities");
    var trending :- StrListOrEmpty(d, "trending_categories");
    var gaps :- StrListOrEmpty(d, "market_gaps");
    var opportunities :- StrListOrEmpty(d, "opportunities");
    var recommendations :- StrListOrEmpty(d, "recommendations");
    Success(ReportSummary(runId, total, t1, t2, t3, top, trending, gaps, opportunities, recommendations))
  }

  /** The smallest valid summary: a run id and a total, nothing else. */
  lemma MinimalReportSummary(runId: string, total: int)
    ensures var r := ParseReportSummary(map["run_id" := JStr(runId), "total_startups_found" := JNum(total)]);
      && r.Success?
      && r.value == ReportSummary(runId, total, 0, 0, 0, [], [], [], [], [])
  {
  }
}
