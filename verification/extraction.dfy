/** Record extraction from a stage's raw text (`parse_startup_data`,
    `extract_tier_info`, `extract_market_fit` in src/crew_orchestration.py). */
module Extraction {
  import opened Options
  import opened Strings
  import opened JsonValues

  /** `json.loads`: a decoded value, or `None` for `JSONDecodeError`. */
  type Decoder = string -> Option<Json>

  predicate IsOpener(c: char) {
    c == '[' || c == '{'
  }

  function CloserOf(c: char): char {
    if c == '[' then ']' else '}'
  }

  /** `text.strip().startswith('[') or text.strip().startswith('{')`. */
  predicate LooksLikeJson(text: string) {
    var t := Strip(text);
    |t| > 0 && IsOpener(t[0])
  }

  // ---------------------------------------------------------------------
  // The fallback search `re.search(r'\[.*\]|\{.*\}', text, re.DOTALL)`
  // ---------------------------------------------------------------------

  /** A match occupying `text[start..end]`. */
  datatype Span = Span(start: nat, end: nat)

  /** The last position at or after `from` that holds `c`. */
  function LastIndexOf(t: string, c: char, from: nat): (r: Option<nat>)
    ensures r.Some? ==> from <= r.value < |t| && t[r.value] == c
    ensures r.Some? ==> forall k :: r.value < k < |t| ==> t[k] != c
    ensures r.None? ==> forall k :: from <= k < |t| ==> t[k] != c
    decreases |t|
  {
    if |t| <= from then None
    else if t[|t| - 1] == c then Some(|t| - 1)
    else LastIndexOf(t[..|t| - 1], c, from)
  }

  /** Position `i` holds an opener with its closer somewhere after it: the
      only positions where either alternative of the pattern can match. */
  predicate Closable(t: string, i: int) {
    && 0 <= i < |t|
    && IsOpener(t[i])
    && exists k :: i < k < |t| && t[k] == CloserOf(t[i])
  }

  /** The leftmost match starting at or after `p`. `.*` is greedy and, with
      DOTALL, crosses every character, so the match runs to the LAST closer;
      brackets are not balanced. */
  function SearchFrom(t: string, p: nat): (r: Option<Span>)
    requires p <= |t|
    ensures r.Some? ==> p <= r.value.start && r.value.start + 2 <= r.value.end <= |t|
    ensures r.Some? ==> Closable(t, r.value.start)
    ensures r.Some? ==> t[r.value.end - 1] == CloserOf(t[r.value.start])
    ensures r.Some? ==> forall k :: r.value.end <= k < |t| ==> t[k] != CloserOf(t[r.value.start])
    ensures r.Some? ==> forall i :: p <= i < r.value.start ==> !Closable(t, i)
    ensures r.None? <==> forall i :: p <= i < |t| ==> !Closable(t, i)
    decreases |t| - p
  {
    if p == |t| then None
    else if IsOpener(t[p]) then
      match LastIndexOf(t, CloserOf(t[p]), p + 1)
      case Some(q) => assert Closable(t, p) by { assert t[q] == CloserOf(t[p]); } Some(Span(p, q + 1))
      case None => SearchFrom(t, p + 1)
    else SearchFrom(t, p + 1)
  }

  /** `re.search(r'\[.*\]|\{.*\}', text, re.DOTALL)`. */
  function RegexSearch(text: string): Option<Span> {
    SearchFrom(text, 0)
  }

  // ---------------------------------------------------------------------
  // Unwrapping a decoded value into a record list
  // ---------------------------------------------------------------------

  /** The value if it is a list, else `[]` (the final `isinstance` test). */
  function AsList(j: Json): seq<Json> {
    if j.JArr? then j.items else []
  }

  /** Unwrapping after decoding the whole text (lines 52-65). */
  function UnwrapDirect(data: Json): seq<Json> {
    match data
    case JArr(xs) => xs
    case JObj(m) =>
      if "startups" in m then AsList(m["startups"])
      else if "top_opportunities" in m then AsList(m["top_opportunities"])
      else if "opportunities" in m then AsList(m["opportunities"])
      else if "name" in m then [data]
      else []
    case _ => []
  }

  /** Unwrapping after decoding the regex fragment (lines 70-76). */
  function UnwrapFragment(data: Json): seq<Json> {
    match data
    case JArr(xs) => xs
    case JObj(m) =>
      if "startups" in m then AsList(m["startups"])
      else if "top_opportunities" in m then AsList(m["top_opportunities"])
      else [data]
    case _ => []
  }

  /** A shape recogniser: claims a decoded value and yields its records,
      or passes it on. */
  datatype Shape = ListShape | KeyShape(key: string) | NamedObjectShape | AnyObjectShape

  function Recognise(s: Shape, j: Json): Option<seq<Json>> {
    match s
    case ListShape => if j.JArr? then Some(j.items) else None
    case KeyShape(key) => if j.JObj? && key in j.fields then Some(AsList(j.fields[key])) else None
    case NamedObjectShape => if j.JObj? && "name" in j.fields then Some([j]) else None
    case AnyObjectShape => if j.JObj? then Some([j]) else None
  }

  /** The records of the first shape that claims `j`; `[]` when none does. */
  function FirstShape(shapes: seq<Shape>, j: Json): seq<Json>
    decreases |shapes|
  {
    if |shapes| == 0 then []
    else match Recognise(shapes[0], j)
      case Some(rs) => rs
      case None => FirstShape(shapes[1..], j)
  }

  /** Priority order for a whole-text decode. */
  const DirectShapes: seq<Shape> :=
    [ListShape, KeyShape("startups"), KeyShape("top_opportunities"), KeyShape("opportunities"), NamedObjectShape]

  /** Priority order for a fragment decode: no 'opportunities' key, and
      any object is taken as one record whether or not it has a name. */
  const FragmentShapes: seq<Shape> :=
    [ListShape, KeyShape("startups"), KeyShape("top_opportunities"), AnyObjectShape]

  /** Both unwrapping steps are "first claiming shape wins" over their
      priority lists. */
  lemma UnwrapIsFirstShape(j: Json)
    ensures UnwrapDirect(j) == FirstShape(DirectShapes, j)
    ensures UnwrapFragment(j) == FirstShape(FragmentShapes, j)
  {
    var d := DirectShapes;
    assert d[1..] == [KeyShape("startups"), KeyShape("top_opportunities"), KeyShape("opportunities"), NamedObjectShape];
    assert d[1..][1..] == [KeyShape("top_opportunities"), KeyShape("opportunities"), NamedObjectShape];
    assert d[1..][1..][1..] == [KeyShape("opportunities"), NamedObjectShape];
    assert d[1..][1..][1..][1..] == [NamedObjectShape];
    assert d[1..][1..][1..][1..][1..] == [];
    var f := FragmentShapes;
    assert f[1..] == [KeyShape("startups"), KeyShape("top_opportunities"), AnyObjectShape];
    assert f[1..][1..] == [KeyShape("top_opportunities"), AnyObjectShape];
    assert f[1..][1..][1..] == [AnyObjectShape];
    assert f[1..][1..][1..][1..] == [];
  }

  /** `parse_startup_data`: never fails; decode failures give `[]`. */
  function ParseStartupData(decode: Decoder, text: string): (r: seq<Json>)
    ensures LooksLikeJson(text) ==>
      r == (match decode(text)
            case None => []
            case Some(d) => FirstShape(DirectShapes, d))
    ensures !LooksLikeJson(text) ==>
      r == (match RegexSearch(text)
            case None => []
            case Some(sp) =>
              match decode(text[sp.start..sp.end])
              case None => []
              case Some(d) => FirstShape(FragmentShapes, d))
  {
    if LooksLikeJson(text) then
      match decode(text)
      case None => []
      case Some(d) => UnwrapIsFirstShape(d); UnwrapDirect(d)
    else
      match RegexSearch(text)
      case None => []
      case Some(sp) =>
        match decode(text[sp.start..sp.end])
        case None => []
        case Some(d) => UnwrapIsFirstShape(d); UnwrapFragment(d)
  }

  // ---------------------------------------------------------------------
  // Name-indexed annotation maps (`extract_tier_info`, `extract_market_fit`)
  // ---------------------------------------------------------------------

  /** A dict from startup name to an annotation dict. */
  type NameMap = map<PyKey, PyDict>

  /** How one list element is indexed: skipped (not a dict), keyed by its
      name, or raising `TypeError` because the name is unhashable. */
  datatype ItemKey = Skip | Unhashable | Key(k: PyKey)

  /** `item.get('name') or item.get('startup_name')`. */
  function NameOf(item: PyDict): Json {
    Or(Get(item, "name"), Get(item, "startup_name"))
  }

  function ItemKeyOf(j: Json): ItemKey {
    if !j.JObj? then Skip
    else match KeyOf(NameOf(j.fields))
      case None => Unhashable
      case Some(k) => Key(k)
  }

  /** The annotation `extract_tier_info` records for one list element. */
  function TierEntry(item: PyDict): PyDict {
    map["primary_tier" := Or(Get(item, "primary_tier"), Get(item, "tier")),
        "secondary_tiers" := Or(Get(item, "secondary_tiers"), Get(item, "secondary_tier")),
        "reasoning" := Or(Get(item, "reasoning"), Get(item, "reason"))]
  }

  /** The annotation `extract_market_fit` records for one list element. */
  function FitEntry(item: PyDict): PyDict {
    map["score" := Or(Get(item, "india_fit_score"), Get(item, "score")),
        "analysis" := Or(Get(item, "india_fit_analysis"), Get(item, "analysis"))]
  }

  /** No element after `i` carries the same key as element `i`. */
  ghost predicate LastWithKey(items: seq<Json>, i: int)
    requires 0 <= i < |items|
  {
    forall j :: i < j < |items| ==> ItemKeyOf(items[j]) != ItemKeyOf(items[i])
  }

  /** The list loop: every dict element is stored under its name, a later
      element overwriting an earlier one; `None` when some element's name
      is unhashable (the loop raises). */
  function IndexItems(items: seq<Json>, entry: PyDict -> PyDict): Option<NameMap>
    decreases |items|
  {
    if |items| == 0 then Some(map[])
    else
      var init := items[..|items| - 1];
      var last := items[|items| - 1];
      match IndexItems(init, entry)
      case None => None
      case Some(m) =>
        match ItemKeyOf(last)
        case Skip => Some(m)
        case Unhashable => None
        case Key(k) => Some(m[k := entry(last.fields)])
  }

  /** The list loop raises exactly when some dict element has an
      unhashable name; otherwise its keys are exactly the names of the
      dict elements, non-dict elements being ignored. */
  lemma {:induction false} IndexItemsKeys(items: seq<Json>, entry: PyDict -> PyDict)
    ensures IndexItems(items, entry).None? <==> exists i :: 0 <= i < |items| && ItemKeyOf(items[i]) == Unhashable
    ensures IndexItems(items, entry).Some? ==> forall k :: k in IndexItems(items, entry).value <==>
      exists i :: 0 <= i < |items| && ItemKeyOf(items[i]) == Key(k)
    decreases |items|
  {
    if |items| > 0 {
      var n := |items| - 1;
      var init := items[..n];
      IndexItemsKeys(init, entry);
      assert forall i :: 0 <= i < n ==> init[i] == items[i];
      if IndexItems(items, entry).Some? {
        var m := IndexItems(items, entry).value;
        forall k
          ensures k in m <==> exists i :: 0 <= i < |items| && ItemKeyOf(items[i]) == Key(k)
        {
          if exists i :: 0 <= i < |items| && ItemKeyOf(items[i]) == Key(k) {
            var i :| 0 <= i < |items| && ItemKeyOf(items[i]) == Key(k);
            if i < n {
              assert ItemKeyOf(init[i]) == Key(k);
            }
          }
        }
      }
    }
  }

  /** A name maps to the annotation built from the LAST dict element
      carrying that name: later duplicates overwrite earlier ones. */
  lemma {:induction false} IndexItemsLastWins(items: seq<Json>, entry: PyDict -> PyDict, i: int)
    requires 0 <= i < |items| && ItemKeyOf(items[i]).Key? && LastWithKey(items, i)
    requires IndexItems(items, entry).Some?
    ensures ItemKeyOf(items[i]).k in IndexItems(items, entry).value
    ensures IndexItems(items, entry).value[ItemKeyOf(items[i]).k] == entry(items[i].fields)
    decreases |items|
  {
    var n := |items| - 1;
    var init := items[..n];
    if i < n {
      assert init[i] == items[i];
      assert LastWithKey(init, i) by {
        forall j | i < j < |init| ensures ItemKeyOf(init[j]) != ItemKeyOf(init[i]) {
          assert init[j] == items[j];
        }
      }
      IndexItemsLastWins(init, entry, i);
      assert ItemKeyOf(items[n]) != ItemKeyOf(items[i]);
    }
  }

  /** The object loop: the object-valued entries, verbatim, under their keys. */
  function ObjectEntries(m: PyDict): (r: NameMap)
    ensures forall key :: key in r <==> key.KStr? && key.s in m && m[key.s].JObj?
    ensures forall s :: s in m && m[s].JObj? ==> r[KStr(s)] == m[s].fields
  {
    map s | s in m && m[s].JObj? :: KStr(s) := m[s].fields
  }

  /** The shared body of `extract_tier_info` and `extract_market_fit`.
      There is no fallback search: text that does not start with a bracket
      gives an empty map. `None` is the `TypeError` of an unhashable name. */
  function ExtractAnnotations(decode: Decoder, text: string, entry: PyDict -> PyDict): (r: Option<NameMap>)
    ensures !LooksLikeJson(text) ==> r == Some(map[])
    ensures LooksLikeJson(text) && decode(text).None? ==> r == Some(map[])
    ensures r.None? ==> LooksLikeJson(text) && decode(text).Some? && decode(text).value.JArr?
    ensures LooksLikeJson(text) && decode(text).Some? && decode(text).value.JObj? ==>
      r == Some(ObjectEntries(decode(text).value.fields))
    ensures LooksLikeJson(text) && decode(text).Some? && decode(text).value.JArr? ==>
      r == IndexItems(decode(text).value.items, entry)
  {
    if !LooksLikeJson(text) then Some(map[])
    else
      match decode(text)
      case None => Some(map[])
      case Some(JArr(xs)) => IndexItems(xs, entry)
      case Some(JObj(m)) => Some(ObjectEntries(m))
      case Some(_) => Some(map[])
  }

  /** `extract_tier_info`. */
  function ExtractTierInfo(decode: Decoder, text: string): Option<NameMap> {
    ExtractAnnotations(decode, text, TierEntry)
  }

  /** `extract_market_fit`. */
  function ExtractMarketFit(decode: Decoder, text: string): Option<NameMap> {
    ExtractAnnotations(decode, text, FitEntry)
  }
}
