/**
 * The mock-data generator of the heat-map server: visibility scoring of one business under one
 * prompt type, the per-cell aggregation of the scores of the businesses near a cell, and the
 * numbered business list.
 *
 * Coordinates are integers in millionths of a degree. The random noise of a score is a parameter
 * of type `Noise`; the list of businesses near a cell and the baseline score of an empty cell
 * (both computed in floating point by the source) are inputs.
 */
module MockData {
  import opened Sorting

  /** A business of the built-in fixture list. */
  datatype Fixture = Fixture(name: string, lat: int, lng: int, category: string, tier: string)

  /** A fixture once numbered and placed on the hexagonal grid. */
  datatype Business = Business(
    id: int, name: string, lat: int, lng: int, category: string, tier: string,
    h3Index: string, district: string)

  /** A business name paired with its visibility score. */
  datatype Scored = Scored(name: string, score: int)

  /** The summary of one hexagonal cell under one prompt type. */
  datatype CellRecord = CellRecord(
    h3Index: string, lat: int, lng: int, promptType: string,
    avgVisibility: int, maxVisibility: int, businessCount: nat,
    topBusinesses: seq<string>, competitionScore: int)

  /** What the generator knows about a cell before scoring: its centre, the businesses within
      150 m of it, one noise draw per such business, and the position-derived baseline. */
  datatype CellInput = CellInput(
    h3Index: string, lat: int, lng: int, nearby: seq<Fixture>, noises: seq<Noise>, baseline: int)

  /** `Math.floor(Math.random() * 21) - 10`: an integer in [-10, 10]. */
  type Noise = n: int | -10 <= n <= 10

  datatype Bounds = Bounds(north: int, south: int, west: int, east: int)

  const SURRY_HILLS_BOUNDS := Bounds(-33_875000, -33_895000, 151_205000, 151_225000)

  const SURRY_HILLS_BUSINESSES: seq<Fixture> := [
    Fixture("Porteño", -33_884200, 151_211500, "restaurant", "top"),
    Fixture("Firedoor", -33_885500, 151_210800, "restaurant", "top"),
    Fixture("Chin Chin Sydney", -33_881000, 151_209500, "restaurant", "top"),
    Fixture("The Winery", -33_883500, 151_212500, "bar", "mid"),
    Fixture("Reuben Hills", -33_886200, 151_211800, "cafe", "top"),
    Fixture("Single O", -33_884800, 151_210200, "cafe", "mid"),
    Fixture("Paramount Coffee Project", -33_883000, 151_208800, "cafe", "top"),
    Fixture("Dead Ringer", -33_885800, 151_209500, "bar", "mid"),
    Fixture("Toko", -33_882500, 151_211000, "restaurant", "mid"),
    Fixture("Bar Reggio", -33_887000, 151_213000, "bar", "low"),
    Fixture("Messina", -33_883800, 151_209800, "dessert", "top"),
    Fixture("Bourke Street Bakery", -33_886500, 151_212200, "cafe", "top"),
    Fixture("Longrain", -33_881500, 151_207800, "restaurant", "mid"),
    Fixture("Nomad", -33_882000, 151_210500, "restaurant", "top"),
    Fixture("The Clock Hotel", -33_887500, 151_213500, "bar", "low"),
    Fixture("Belly Bao", -33_884500, 151_209000, "restaurant", "mid"),
    Fixture("Spice I Am", -33_886800, 151_208500, "restaurant", "mid"),
    Fixture("Bodega", -33_885200, 151_211200, "restaurant", "mid"),
    Fixture("121BC", -33_886000, 151_210000, "bar", "mid"),
    Fixture("Kawa Cafe", -33_884000, 151_208000, "cafe", "low")
  ]

  const PROMPT_TYPES: seq<string> :=
    ["Generic_Best", "Date_Night", "Business_Lunch", "Casual_Drinks", "Coffee_Spot"]

  const TIER_SCORES: map<string, int> := map["top" := 85, "mid" := 55, "low" := 25]

  const CATEGORY_BONUS: map<string, map<string, int>> := map[
    "Date_Night" := map["restaurant" := 15, "bar" := 10, "cafe" := -10],
    "Business_Lunch" := map["restaurant" := 10, "cafe" := 5, "bar" := -15],
    "Coffee_Spot" := map["cafe" := 25, "dessert" := 10, "restaurant" := -20, "bar" := -30],
    "Casual_Drinks" := map["bar" := 20, "restaurant" := 5, "cafe" := -10],
    "Generic_Best" := map["restaurant" := 5, "cafe" := 5, "bar" := 5]
  ]

  /** `tierScores[tier] || 50`: no table entry is 0, so the fallback applies exactly to unknown tiers. */
  function BaseScore(tier: string): (r: int)
    ensures tier in TIER_SCORES ==> r == TIER_SCORES[tier]
    ensures tier !in TIER_SCORES <==> r == 50
    ensures 25 <= r <= 85
  {
    if tier in TIER_SCORES && TIER_SCORES[tier] != 0 then TIER_SCORES[tier] else 50
  }

  /** `categoryBonus[promptType]?.[category] || 0`: no table entry is 0, so the fallback applies
      exactly to the pairs missing from the table. */
  function CategoryBonus(promptType: string, category: string): (r: int)
    ensures promptType in CATEGORY_BONUS && category in CATEGORY_BONUS[promptType] ==>
      r == CATEGORY_BONUS[promptType][category] && r != 0
    ensures -30 <= r <= 25
    ensures (promptType !in CATEGORY_BONUS || category !in CATEGORY_BONUS[promptType]) ==> r == 0
  {
    if promptType in CATEGORY_BONUS && category in CATEGORY_BONUS[promptType]
    then CATEGORY_BONUS[promptType][category]
    else 0
  }

  /** The score before clamping. */
  function RawScore(b: Fixture, promptType: string, noise: Noise): int
  {
    BaseScore(b.tier) + CategoryBonus(promptType, b.category) + noise
  }

  /** `Math.max(0, Math.min(100, base + bonus + noise))`. */
  function CalculateVisibility(b: Fixture, promptType: string, noise: Noise): (r: int)
    ensures 0 <= r <= 100
    ensures 0 <= RawScore(b, promptType, noise) <= 100 ==> r == RawScore(b, promptType, noise)
    ensures RawScore(b, promptType, noise) < 0 ==> r == 0
    ensures RawScore(b, promptType, noise) > 100 ==> r == 100
  {
    var raw := BaseScore(b.tier) + CategoryBonus(promptType, b.category) + noise;
    if raw > 100 then 100 else if raw < 0 then 0 else raw
  }

  /** More noise never lowers a score. */
  lemma VisibilityMonotoneInNoise(b: Fixture, promptType: string, n1: Noise, n2: Noise)
    requires n1 <= n2
    ensures CalculateVisibility(b, promptType, n1) <= CalculateVisibility(b, promptType, n2)
  {
  }

  /** A top-tier cafe always reaches the ceiling as a coffee spot, while as a business lunch it
      scores 90 plus the noise: on average 100 against 90. */
  lemma CoffeeSpotBeatsBusinessLunch(name: string, lat: int, lng: int, noise: Noise)
    ensures var cafe := Fixture(name, lat, lng, "cafe", "top");
      CalculateVisibility(cafe, "Coffee_Spot", noise) == 100 &&
      CalculateVisibility(cafe, "Business_Lunch", noise) == 90 + noise
  {
  }

  /** Orders scores from highest to lowest (`(a, b) => b.score - a.score`). */
  const ByScoreDescending: Scored -> int := (s: Scored) => -s.score

  /** Every nearby business with its score, in the order of the nearby list. */
  function ScoreAll(nearby: seq<Fixture>, promptType: string, noises: seq<Noise>): (r: seq<Scored>)
    requires |noises| == |nearby|
    ensures |r| == |nearby|
    ensures forall i :: 0 <= i < |r| ==> r[i].name == nearby[i].name && 0 <= r[i].score <= 100
  {
    seq(|nearby|, i requires 0 <= i < |nearby| =>
      Scored(nearby[i].name, CalculateVisibility(nearby[i], promptType, noises[i])))
  }

  /** The scores sorted highest first, ties in their original order. */
  function RankByScore(scored: seq<Scored>): seq<Scored>
  {
    SortBy(scored, ByScoreDescending)
  }

  /** `reduce((sum, b) => sum + b.score, 0)`. */
  function Sum(s: seq<Scored>): int
  {
    if s == [] then 0 else s[0].score + Sum(s[1..])
  }

  /** `Math.round(sum / n)`, which is `floor(sum / n + 1/2)`. */
  function RoundedMean(sum: int, n: nat): (r: int)
    requires n > 0
    ensures 2 * n * r <= 2 * sum + n < 2 * n * (r + 1)
  {
    (2 * sum + n) / (2 * n)
  }

  function Min(a: int, b: int): int { if a <= b then a else b }

  /** The names of the scored entries, in order. */
  function Names(s: seq<Scored>): (r: seq<string>)
    ensures |r| == |s|
    ensures forall i :: 0 <= i < |s| ==> r[i] == s[i].name
  {
    seq(|s|, i requires 0 <= i < |s| => s[i].name)
  }

  /** What every cell record satisfies. */
  predicate ValidCell(c: CellRecord)
  {
    && 0 <= c.avgVisibility <= c.maxVisibility <= 100
    && |c.topBusinesses| <= 3
    && |c.topBusinesses| <= c.businessCount
    && c.competitionScore == Min(100, 15 * c.businessCount)
  }

  /** One noise draw per nearby business; `Math.floor(seed * 0.6)` with the seed in [0, 100). */
  predicate ValidInput(cell: CellInput)
  {
    |cell.noises| == |cell.nearby| && 0 <= cell.baseline < 60
  }

  /** One cell of `generateHeatmapData`: the baseline for an empty cell, otherwise the rounded
      mean, the maximum, the three best names and the competition measure. */
  function AggregateCell(promptType: string, cell: CellInput): (c: CellRecord)
    requires ValidInput(cell)
    ensures ValidCell(c)
    ensures c.h3Index == cell.h3Index && c.lat == cell.lat && c.lng == cell.lng
    ensures c.promptType == promptType
    ensures c.businessCount == |cell.nearby|
    ensures |c.topBusinesses| == Min(3, |cell.nearby|)
    ensures |cell.nearby| == 0 ==>
      c.avgVisibility == c.maxVisibility == cell.baseline && c.competitionScore == 0
    ensures |cell.nearby| > 0 ==>
      c.avgVisibility == RoundedMean(Sum(ScoreAll(cell.nearby, promptType, cell.noises)), |cell.nearby|)
    ensures var scored := ScoreAll(cell.nearby, promptType, cell.noises);
      && (forall i :: 0 <= i < |scored| ==> scored[i].score <= c.maxVisibility)
      && (|scored| > 0 ==> exists i :: 0 <= i < |scored| && scored[i].score == c.maxVisibility)
      && (|scored| > 0 ==> exists i :: 0 <= i < |scored| && scored[i].score <= c.avgVisibility)
  {
    if |cell.nearby| == 0 then
      CellRecord(cell.h3Index, cell.lat, cell.lng, promptType, cell.baseline, cell.baseline, 0, [], 0)
    else
      var scored := ScoreAll(cell.nearby, promptType, cell.noises);
      var ranked := RankByScore(scored);
      var n := |cell.nearby|;
      ScoreSummaryFacts(scored);
      SumSortBy(scored, ByScoreDescending);
      CellRecord(cell.h3Index, cell.lat, cell.lng, promptType,
        RoundedMean(Sum(ranked), n), ranked[0].score, n,
        Names(ranked[..Min(3, n)]), Min(100, n * 15))
  }

  /** The top list names the highest-scoring businesses: the ranked list is a permutation of the
      scores, sorted highest first, in which equal scores keep the order of the nearby list, and
      the top list is the names of its first min(3, n) entries. */
  lemma TopBusinessesAreHighest(promptType: string, cell: CellInput)
    requires ValidInput(cell)
    ensures var c := AggregateCell(promptType, cell);
      var scored := ScoreAll(cell.nearby, promptType, cell.noises);
      var ranked := RankByScore(scored);
      && multiset(ranked) == multiset(scored)
      && (forall i, j :: 0 <= i < j < |ranked| ==> ranked[i].score >= ranked[j].score)
      && (forall k :: WithKey(ranked, ByScoreDescending, k) == WithKey(scored, ByScoreDescending, k))
      && |c.topBusinesses| <= |ranked|
      && (forall i :: 0 <= i < |c.topBusinesses| ==> c.topBusinesses[i] == ranked[i].name)
  {
    var scored := ScoreAll(cell.nearby, promptType, cell.noises);
    RankedFacts(scored);
    forall k ensures WithKey(RankByScore(scored), ByScoreDescending, k) == WithKey(scored, ByScoreDescending, k) {
      SortByIsStable(scored, ByScoreDescending, k);
    }
  }

  /** A cell with one nearby business lists exactly that business, and its score is both the
      average and the maximum. */
  lemma SingleBusinessCell(promptType: string, cell: CellInput)
    requires |cell.noises| == |cell.nearby| == 1
    requires 0 <= cell.baseline < 60
    ensures var c := AggregateCell(promptType, cell);
      var score := CalculateVisibility(cell.nearby[0], promptType, cell.noises[0]);
      && c.topBusinesses == [cell.nearby[0].name]
      && c.avgVisibility == c.maxVisibility == score
      && c.competitionScore == 15
  {
    var scored := ScoreAll(cell.nearby, promptType, cell.noises);
    assert RankByScore(scored) == scored by {
      assert scored[1..] == [];
      assert SortBy(scored[1..], ByScoreDescending) == [];
    }
    var r := RoundedMean(Sum(scored), 1);
    assert Sum(scored) == scored[0].score by {
      assert scored[1..] == [];
    }
  }

  predicate ValidInputs(cells: seq<CellInput>)
  {
    forall i :: 0 <= i < |cells| ==> ValidInput(cells[i])
  }

  /** `generateHeatmapData(promptType)`: one record per cell of the grid, in grid order. */
  function GenerateHeatmapData(promptType: string, cells: seq<CellInput>): (r: seq<CellRecord>)
    requires ValidInputs(cells)
    ensures |r| == |cells|
    ensures forall i :: 0 <= i < |r| ==> r[i] == AggregateCell(promptType, cells[i])
    ensures forall i :: 0 <= i < |r| ==> ValidCell(r[i]) && r[i].promptType == promptType
  {
    seq(|cells|, i requires 0 <= i < |cells| && ValidInput(cells[i]) => AggregateCell(promptType, cells[i]))
  }

  /** `generateBusinessList()`: the i-th fixture gets id i + 1, its grid cell and the district. */
  function GenerateBusinessList(fixtures: seq<Fixture>, cellOf: (int, int) -> string): (r: seq<Business>)
    ensures |r| == |fixtures|
    ensures forall i :: 0 <= i < |r| ==>
      var f := fixtures[i];
      r[i] == Business(i + 1, f.name, f.lat, f.lng, f.category, f.tier, cellOf(f.lat, f.lng), "Surry Hills")
  {
    seq(|fixtures|, i requires 0 <= i < |fixtures| =>
      var f := fixtures[i];
      Business(i + 1, f.name, f.lat, f.lng, f.category, f.tier, cellOf(f.lat, f.lng), "Surry Hills"))
  }

  /** The maximum and the rounded mean taken from the ranked scores bound every score and are
      bounded by them. */
  lemma ScoreSummaryFacts(scored: seq<Scored>)
    requires |scored| > 0
    requires forall i :: 0 <= i < |scored| ==> 0 <= scored[i].score <= 100
    ensures var ranked := RankByScore(scored); var n := |scored|;
      && |ranked| == n
      && 0 <= RoundedMean(Sum(ranked), n) <= ranked[0].score <= 100
      && (forall i :: 0 <= i < n ==> scored[i].score <= ranked[0].score)
      && (exists i :: 0 <= i < n && scored[i].score == ranked[0].score)
      && (exists i :: 0 <= i < n && scored[i].score <= RoundedMean(Sum(ranked), n))
  {
    var ranked := RankByScore(scored);
    var n := |scored|;
    RankedFacts(scored);
    SumBounds(ranked, ranked[n - 1].score, ranked[0].score);
    MeanBounds(Sum(ranked), n, ranked[n - 1].score, ranked[0].score);
    forall i | 0 <= i < n ensures scored[i].score <= ranked[0].score {
      var j :| 0 <= j < n && ranked[j] == scored[i];
    }
    var top :| 0 <= top < n && scored[top] == ranked[0];
    assert scored[top].score == ranked[0].score;
    var last :| 0 <= last < n && scored[last] == ranked[n - 1];
    assert scored[last].score <= RoundedMean(Sum(ranked), n);
  }

  /** The ranked list is a descending, stable permutation of the scores; its first entry is the
      maximum and its last the minimum. */
  lemma RankedFacts(scored: seq<Scored>)
    requires forall i :: 0 <= i < |scored| ==> 0 <= scored[i].score <= 100
    ensures var ranked := RankByScore(scored);
      && |ranked| == |scored|
      && multiset(ranked) == multiset(scored)
      && (forall i, j :: 0 <= i < j < |ranked| ==> ranked[i].score >= ranked[j].score)
      && (forall i :: 0 <= i < |ranked| ==> 0 <= ranked[i].score <= 100)
      && (forall i :: 0 <= i < |scored| ==> scored[i] in ranked)
      && (forall i :: 0 <= i < |ranked| ==> ranked[i] in scored)
  {
    var ranked := RankByScore(scored);
    SortByIsPermutation(scored, ByScoreDescending);
    SortByIsSorted(scored, ByScoreDescending);
    forall i | 0 <= i < |scored| ensures scored[i] in ranked {
      assert scored[i] in multiset(scored);
    }
    forall i | 0 <= i < |ranked| ensures ranked[i] in scored && 0 <= ranked[i].score <= 100 {
      assert ranked[i] in multiset(ranked);
    }
    forall i, j | 0 <= i < j < |ranked| ensures ranked[i].score >= ranked[j].score {
      assert ByScoreDescending(ranked[i]) <= ByScoreDescending(ranked[j]);
    }
  }

  /** Scores that all lie in [lo, hi] sum to between n·lo and n·hi. */
  lemma {:induction false} SumBounds(s: seq<Scored>, lo: int, hi: int)
    requires forall i :: 0 <= i < |s| ==> lo <= s[i].score <= hi
    ensures |s| * lo <= Sum(s) <= |s| * hi
  {
    if s != [] {
      SumBounds(s[1..], lo, hi);
    }
  }

  /** Inserting an entry adds its score to the sum. */
  lemma {:induction false} SumInsertBy(x: Scored, s: seq<Scored>, key: Scored -> int)
    ensures Sum(InsertBy(x, s, key)) == x.score + Sum(s)
  {
    if s == [] || key(x) <= key(s[0]) {
      assert ([x] + s)[1..] == s;
    } else {
      SumInsertBy(x, s[1..], key);
      assert ([s[0]] + InsertBy(x, s[1..], key))[1..] == InsertBy(x, s[1..], key);
    }
  }

  /** Sorting does not change the sum, so the mean of the ranked scores is the mean of the scores. */
  lemma {:induction false} SumSortBy(s: seq<Scored>, key: Scored -> int)
    ensures Sum(SortBy(s, key)) == Sum(s)
  {
    if s != [] {
      SumSortBy(s[1..], key);
      SumInsertBy(s[0], SortBy(s[1..], key), key);
    }
  }

  /** A rounded mean lies between the bounds of what was averaged. */
  lemma MeanBounds(sum: int, n: nat, lo: int, hi: int)
    requires n > 0
    requires n * lo <= sum <= n * hi
    ensures lo <= RoundedMean(sum, n) <= hi
  {
    var r := RoundedMean(sum, n);
    var m := 2 * n;
    assert m * r <= 2 * sum + n < m * (r + 1);
    assert 2 * sum + n < m * (hi + 1) by {
      assert m * (hi + 1) == 2 * (n * hi) + 2 * n;
    }
    assert m * lo <= 2 * sum + n by {
      assert m * lo == 2 * (n * lo);
    }
    if r > hi {
      MulMonotone(m, hi + 1, r);
      assert false;
    }
    if r < lo {
      MulMonotone(m, r + 1, lo);
      assert false;
    }
  }

  lemma MulMonotone(m: nat, a: int, b: int)
    requires a <= b
    ensures m * a <= m * b
  {
    assert m * b - m * a == m * (b - a);
  }
}
