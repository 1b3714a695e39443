/**
 * The HTTP handlers of the heat-map server, each as a function from the request's parameters and
 * the server's startup state to the response body.
 *
 * The startup state is the heat-map cache (one list of cell records per prompt type) and the
 * numbered business list. A query-string number is modelled as `Option<int>`: `None` stands for a
 * parameter that is absent or empty, which the handlers treat alike.
 */
module ServerApi {
  import opened Common
  import opened Seqs
  import opened MockData

  /** heatmapCache: prompt type -> the records of every cell for that prompt type. */
  type Cache = map<string, seq<CellRecord>>

  /** Every cached record satisfies the cell invariant. */
  predicate AllCellsValid(cache: Cache)
  {
    forall t, i :: t in cache && 0 <= i < |cache[t]| ==> ValidCell(cache[t][i])
  }

  /** Startup: `PROMPT_TYPES.forEach(type => heatmapCache[type] = generateHeatmapData(type))`. */
  method InitHeatmapCache(types: seq<string>, inputs: string -> seq<CellInput>) returns (cache: Cache)
    requires forall t :: t in types ==> ValidInputs(inputs(t))
    ensures forall t :: t in cache <==> t in types
    ensures forall t :: t in cache ==> cache[t] == GenerateHeatmapData(t, inputs(t))
    ensures AllCellsValid(cache)
  {
    cache := map[];
    var k := 0;
    while k < |types|
      invariant 0 <= k <= |types|
      invariant forall t :: t in cache <==> t in types[..k]
      invariant forall t :: t in cache ==> t in types && cache[t] == GenerateHeatmapData(t, inputs(t))
    {
      cache := cache[types[k] := GenerateHeatmapData(types[k], inputs(types[k]))];
      k := k + 1;
    }
    assert types[..k] == types;
  }

  // ----- GET /api/heatmap -----

  /** The optional bounding box of a heat-map request. */
  datatype BoxQuery = BoxQuery(minLat: Option<int>, maxLat: Option<int>, minLng: Option<int>, maxLng: Option<int>)

  datatype HeatmapResponse = HeatmapResponse(promptType: string, count: nat, bounds: Bounds, data: seq<CellRecord>)

  /** The filter runs only when all four bounds are given. */
  predicate HasAllBounds(q: BoxQuery)
  {
    q.minLat.Some? && q.maxLat.Some? && q.minLng.Some? && q.maxLng.Some?
  }

  /** Inclusive on all four sides. */
  function InBox(minLat: int, maxLat: int, minLng: int, maxLng: int): CellRecord -> bool
  {
    (d: CellRecord) => minLat <= d.lat && d.lat <= maxLat && minLng <= d.lng && d.lng <= maxLng
  }

  /** `heatmapCache[prompt_type] || heatmapCache['Generic_Best']`: a cached list, even an empty one,
      is truthy, so the fallback applies exactly to prompt types that are not cached. */
  function CachedCells(cache: Cache, promptType: string): seq<CellRecord>
    requires "Generic_Best" in cache
  {
    if promptType in cache then cache[promptType] else cache["Generic_Best"]
  }

  /** `GET /api/heatmap`; `prompt_type` defaults to Generic_Best when absent. */
  function Heatmap(cache: Cache, promptType: Option<string>, q: BoxQuery): (r: HeatmapResponse)
    requires "Generic_Best" in cache
    ensures r.promptType == (if promptType.Some? then promptType.value else "Generic_Best")
    ensures r.count == |r.data|
    ensures r.bounds == SURRY_HILLS_BOUNDS
    ensures var source := CachedCells(cache, r.promptType);
      && IsSubsequence(r.data, source)
      && (!HasAllBounds(q) ==> r.data == source)
      && (HasAllBounds(q) ==> forall d :: d in r.data <==>
            d in source && q.minLat.value <= d.lat <= q.maxLat.value && q.minLng.value <= d.lng <= q.maxLng.value)
  {
    var requested := if promptType.Some? then promptType.value else "Generic_Best";
    var source := CachedCells(cache, requested);
    var filtered :=
      if HasAllBounds(q) then Filter(source, InBox(q.minLat.value, q.maxLat.value, q.minLng.value, q.maxLng.value))
      else source;
    HeatmapFacts(source, q);
    HeatmapResponse(requested, |filtered|, SURRY_HILLS_BOUNDS, filtered)
  }

  lemma HeatmapFacts(source: seq<CellRecord>, q: BoxQuery)
    ensures !HasAllBounds(q) ==> IsSubsequence(source, source)
    ensures HasAllBounds(q) ==>
      var box := InBox(q.minLat.value, q.maxLat.value, q.minLng.value, q.maxLng.value);
      IsSubsequence(Filter(source, box), source) && forall d :: d in Filter(source, box) <==> d in source && box(d)
  {
    if HasAllBounds(q) {
      var box := InBox(q.minLat.value, q.maxLat.value, q.minLng.value, q.maxLng.value);
      FilterMembership(source, box);
      FilterIsSubsequence(source, box);
    } else {
      SubsequenceReflexive(source);
    }
  }

  /** An unknown prompt type is served the Generic_Best records under its own name. */
  lemma UnknownPromptServesGenericBest(cache: Cache, promptType: string, q: BoxQuery)
    requires "Generic_Best" in cache && promptType !in cache
    ensures var r := Heatmap(cache, Some(promptType), q);
      r.promptType == promptType && IsSubsequence(r.data, cache["Generic_Best"])
  {
  }

  // ----- GET /api/businesses -----

  datatype BusinessesResponse = BusinessesResponse(count: nat, data: seq<Business>)

  function InDistrict(district: string): Business -> bool
  {
    (b: Business) => b.district == district
  }

  function InCategory(category: string): Business -> bool
  {
    (b: Business) => b.category == category
  }

  /** What the district and category parameters, when given, demand of a business. */
  predicate MatchesQuery(b: Business, district: Option<string>, category: Option<string>)
  {
    (Truthy(district) ==> b.district == district.value) && (Truthy(category) ==> b.category == category.value)
  }

  /** `GET /api/businesses`: filter by district, then by category; an absent parameter is no constraint. */
  function Businesses(list: seq<Business>, district: Option<string>, category: Option<string>): (r: BusinessesResponse)
    ensures r.count == |r.data|
    ensures IsSubsequence(r.data, list)
    ensures forall b :: b in r.data <==> b in list && MatchesQuery(b, district, category)
    ensures !Truthy(district) && !Truthy(category) ==> r.data == list
  {
    var byDistrict := if Truthy(district) then Filter(list, InDistrict(district.value)) else list;
    var byCategory := if Truthy(category) then Filter(byDistrict, InCategory(category.value)) else byDistrict;
    BusinessesFacts(list, district, category);
    BusinessesResponse(|byCategory|, byCategory)
  }

  lemma BusinessesFacts(list: seq<Business>, district: Option<string>, category: Option<string>)
    ensures var byDistrict := if Truthy(district) then Filter(list, InDistrict(district.value)) else list;
      var byCategory := if Truthy(category) then Filter(byDistrict, InCategory(category.value)) else byDistrict;
      IsSubsequence(byCategory, list) &&
      forall b :: b in byCategory <==> b in list && MatchesQuery(b, district, category)
  {
    var both := (b: Business) => MatchesQuery(b, district, category);
    SubsequenceReflexive(list);
    if Truthy(district) {
      FilterMembership(list, InDistrict(district.value));
      FilterIsSubsequence(list, InDistrict(district.value));
      if Truthy(category) {
        var byDistrict := Filter(list, InDistrict(district.value));
        FilterMembership(byDistrict, InCategory(category.value));
        FilterTwice(list, InDistrict(district.value), InCategory(category.value), both);
        FilterIsSubsequence(list, both);
      }
    } else if Truthy(category) {
      FilterMembership(list, InCategory(category.value));
      FilterIsSubsequence(list, InCategory(category.value));
    }
  }

  // ----- GET /api/business/:id/visibility -----

  function HasId(id: int): Business -> bool
  {
    (b: Business) => b.id == id
  }

  function HasCell(h3Index: string): CellRecord -> bool
  {
    (c: CellRecord) => c.h3Index == h3Index
  }

  /** `businessList.find(b => b.id === parseInt(id))`; `None` for an id that is not a number. */
  function FindBusiness(list: seq<Business>, id: Option<int>): (r: Option<Business>)
    ensures r.None? <==> id.None? || forall i :: 0 <= i < |list| ==> list[i].id != id.value
    ensures r.Some? ==> r.value in list && r.value.id == id.value
  {
    if id.None? then None else Find(list, HasId(id.value))
  }

  /** In the generated list, id k names the k-th fixture, and no other id names anything. */
  lemma GeneratedListLookup(fixtures: seq<Fixture>, cellOf: (int, int) -> string, k: int)
    ensures var list := GenerateBusinessList(fixtures, cellOf);
      FindBusiness(list, Some(k)) == if 1 <= k <= |fixtures| then Some(list[k - 1]) else None
  {
    var list := GenerateBusinessList(fixtures, cellOf);
    var i := FindIndex(list, HasId(k));
    if i.Some? {
      assert list[i.value].id == i.value + 1;
    }
  }

  /** The cell record of `h3Index` under prompt type `t`, if the cache has one. */
  function CellFor(cache: Cache, t: string, h3Index: string): Option<CellRecord>
    requires t in cache
  {
    Find(cache[t], HasCell(h3Index))
  }

  /** `gridData?.topBusinesses.includes(business.name)`. */
  predicate InTopList(cell: Option<CellRecord>, name: string)
  {
    cell.Some? && name in cell.value.topBusinesses
  }

  /** The `forEach` that fills the visibility object: the cell's maximum where the business is in
      the cell's top list, otherwise that prompt type's fallback draw (`floor(random * 40) + 20`). */
  method VisibilityMap(cache: Cache, b: Business, fallbacks: seq<int>) returns (visibility: map<string, int>)
    requires forall t :: t in PROMPT_TYPES ==> t in cache
    requires |fallbacks| == |PROMPT_TYPES|
    requires forall i :: 0 <= i < |fallbacks| ==> 20 <= fallbacks[i] < 60
    ensures forall t :: t in visibility <==> t in PROMPT_TYPES
    ensures forall i :: 0 <= i < |PROMPT_TYPES| ==>
      var t := PROMPT_TYPES[i]; var cell := CellFor(cache, t, b.h3Index);
      visibility[t] == if InTopList(cell, b.name) then cell.value.maxVisibility else fallbacks[i]
    ensures forall t :: t in visibility ==>
      var cell := CellFor(cache, t, b.h3Index);
      (InTopList(cell, b.name) ==> visibility[t] == cell.value.maxVisibility) &&
      (!InTopList(cell, b.name) ==> 20 <= visibility[t] < 60)
    ensures AllCellsValid(cache) ==> forall t :: t in visibility ==> 0 <= visibility[t] <= 100
  {
    visibility := map[];
    var k := 0;
    while k < |PROMPT_TYPES|
      invariant 0 <= k <= |PROMPT_TYPES|
      invariant forall t :: t in visibility <==> t in PROMPT_TYPES[..k]
      invariant forall i :: 0 <= i < k ==>
        var t := PROMPT_TYPES[i]; var cell := CellFor(cache, t, b.h3Index);
        visibility[t] == if InTopList(cell, b.name) then cell.value.maxVisibility else fallbacks[i]
    {
      var t := PROMPT_TYPES[k];
      var cell := Find(cache[t], HasCell(b.h3Index));
      var score := if cell.Some? && b.name in cell.value.topBusinesses then cell.value.maxVisibility else fallbacks[k];
      visibility := visibility[t := score];
      k := k + 1;
    }
    assert PROMPT_TYPES[..k] == PROMPT_TYPES;
    forall t | t in visibility
      ensures AllCellsValid(cache) ==> 0 <= visibility[t] <= 100
    {
      var cell := CellFor(cache, t, b.h3Index);
      if AllCellsValid(cache) && InTopList(cell, b.name) {
        var j := FindIndex(cache[t], HasCell(b.h3Index)).value;
        assert ValidCell(cache[t][j]);
      }
    }
  }

  datatype VisibilityResponse =
    | NotFound
    | Found(business: Business, visibility: map<string, int>, promptTypes: seq<string>)

  /** `GET /api/business/:id/visibility`: 404 for an unknown id, otherwise the visibility map. */
  method BusinessVisibility(cache: Cache, list: seq<Business>, id: Option<int>, fallbacks: seq<int>)
    returns (r: VisibilityResponse)
    requires forall t :: t in PROMPT_TYPES ==> t in cache
    requires |fallbacks| == |PROMPT_TYPES|
    requires forall i :: 0 <= i < |fallbacks| ==> 20 <= fallbacks[i] < 60
    ensures r.NotFound? <==> id.None? || forall i :: 0 <= i < |list| ==> list[i].id != id.value
    ensures r.Found? ==> r.business in list && r.business.id == id.value && r.promptTypes == PROMPT_TYPES
    ensures r.Found? ==> forall t :: t in r.visibility <==> t in PROMPT_TYPES
    ensures r.Found? ==> forall t :: t in r.visibility ==>
      var cell := CellFor(cache, t, r.business.h3Index);
      (InTopList(cell, r.business.name) ==> r.visibility[t] == cell.value.maxVisibility) &&
      (!InTopList(cell, r.business.name) ==> 20 <= r.visibility[t] < 60)
  {
    var business := FindBusiness(list, id);
    if business.None? {
      return NotFound;
    }
    var visibility := VisibilityMap(cache, business.value, fallbacks);
    r := Found(business.value, visibility, PROMPT_TYPES);
  }

  // ----- POST /api/free-scan -----

  /** The random draws of one free scan, in the source's ranges. */
  datatype ScanDraws = ScanDraws(
    visible: bool, mentionDraw: int,
    chatgptDraw: int, perplexityDraw: int, geminiDraw: int, claudeDraw: int,
    geminiWarning: bool, hallucinated: bool)

  predicate ValidDraws(d: ScanDraws)
  {
    && 0 <= d.mentionDraw < (if d.visible then 8 else 2)
    && 0 <= d.chatgptDraw < 40 && 0 <= d.perplexityDraw < 30
    && 0 <= d.geminiDraw < 35 && 0 <= d.claudeDraw < 25
  }

  datatype PlatformScore = PlatformScore(platform: string, score: int, status: string)
  datatype Competitor = Competitor(name: string, mentions: int, diff: int)

  datatype FreeScanResult = FreeScanResult(
    name: string, city: string, category: string, isVisible: bool, totalScans: int,
    mentionCount: int, platformScores: seq<PlatformScore>, competitors: seq<Competitor>,
    hallucinationPlatforms: seq<string>)

  const COMPETITOR_MENTIONS: seq<(string, int)> := [
    ("Joe's Pizza", 12), ("Mario's Kitchen", 9), ("The Local Bistro", 8),
    ("Corner Cafe", 6), ("Downtown Diner", 5)
  ]

  /** `POST /api/free-scan`: 400 unless both names are given, otherwise the simulated report. */
  function FreeScan(businessName: Option<string>, city: Option<string>, d: ScanDraws): (r: Result<FreeScanResult, int>)
    requires ValidDraws(d)
    ensures r.Err? <==> !Truthy(businessName) || !Truthy(city)
    ensures r.Err? ==> r.error == 400
    ensures r.Ok? ==> var s := r.value;
      && s.name == businessName.value && s.city == city.value && s.isVisible == d.visible
      && (s.isVisible ==> 2 <= s.mentionCount <= 9)
      && (!s.isVisible ==> 0 <= s.mentionCount <= 1)
      && |s.competitors| == |COMPETITOR_MENTIONS|
      && (forall i :: 0 <= i < |s.competitors| ==>
            s.competitors[i].name == COMPETITOR_MENTIONS[i].0 &&
            s.competitors[i].mentions == COMPETITOR_MENTIONS[i].1 &&
            s.competitors[i].diff == s.competitors[i].mentions - s.mentionCount)
      && (forall p :: p in s.platformScores ==> 5 <= p.score < 80)
  {
    if !Truthy(businessName) || !Truthy(city) then Err(400)
    else
      var visible := d.visible;
      var mentions := if visible then d.mentionDraw + 2 else d.mentionDraw;
      Ok(FreeScanResult(
        businessName.value, city.value, "Restaurant", visible, 50, mentions,
        [ PlatformScore("chatgpt", d.chatgptDraw + (if visible then 40 else 10), if visible then "indexed" else "missing"),
          PlatformScore("perplexity", d.perplexityDraw + (if visible then 50 else 15), if visible then "indexed" else "warning"),
          PlatformScore("gemini", d.geminiDraw + (if visible then 35 else 5), if d.geminiWarning then "warning" else "indexed"),
          PlatformScore("claude", d.claudeDraw + (if visible then 45 else 20), if visible then "indexed" else "missing") ],
        seq(|COMPETITOR_MENTIONS|, i requires 0 <= i < |COMPETITOR_MENTIONS| =>
          Competitor(COMPETITOR_MENTIONS[i].0, COMPETITOR_MENTIONS[i].1, COMPETITOR_MENTIONS[i].1 - mentions)),
        if d.hallucinated then ["ChatGPT", "Gemini"] else []))
  }

  /** The competitor list reads from most to least ahead of the scanned business, and a visible
      scan always reports more mentions than an invisible one. */
  lemma FreeScanOrdering(name: string, city: string, d1: ScanDraws, d2: ScanDraws)
    requires ValidDraws(d1) && ValidDraws(d2) && name != "" && city != ""
    requires d1.visible && !d2.visible
    ensures var r1 := FreeScan(Some(name), Some(city), d1);
      var r2 := FreeScan(Some(name), Some(city), d2);
      && r1.value.mentionCount > r2.value.mentionCount
      && forall i, j :: 0 <= i < j < |r1.value.competitors| ==> r1.value.competitors[i].diff > r1.value.competitors[j].diff
  {
    var cs := FreeScan(Some(name), Some(city), d1).value.competitors;
    forall i, j | 0 <= i < j < |cs| ensures cs[i].diff > cs[j].diff {
      assert COMPETITOR_MENTIONS[i].1 > COMPETITOR_MENTIONS[j].1;
    }
  }
}
