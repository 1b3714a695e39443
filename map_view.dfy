/**
 * The classification helpers of the map page: rank and score colour bands, the ranking class of
 * the restaurant panel, the per-scenario leaderboard, the marker colour and the hexagon insight.
 */
module MapView {
  import opened Common
  import opened Sorting
  import Seqs

  /** A deck.gl colour: red, green, blue, alpha. */
  datatype Rgba = Rgba(r: int, g: int, b: int, a: int)

  const RANK_GREEN: Rgba := Rgba(34, 197, 94, 230)
  const RANK_YELLOW: Rgba := Rgba(250, 204, 21, 230)
  const RANK_RED: Rgba := Rgba(239, 68, 68, 200)
  const YOU_BLUE: Rgba := Rgba(59, 130, 246, 255)

  const HEX_GREEN: Rgba := Rgba(34, 197, 94, 150)
  const HEX_LIGHT_GREEN: Rgba := Rgba(134, 239, 172, 150)
  const HEX_YELLOW: Rgba := Rgba(250, 204, 21, 150)
  const HEX_RED: Rgba := Rgba(239, 68, 68, 120)

  /** `getRankColor`: green for ranks up to 3, yellow for 4 and 5, red after. */
  function RankColor(rank: int): (c: Rgba)
    ensures c == RANK_GREEN <==> rank <= 3
    ensures c == RANK_YELLOW <==> 3 < rank <= 5
    ensures c == RANK_RED <==> 5 < rank
  {
    if rank <= 3 then RANK_GREEN
    else if rank <= 5 then RANK_YELLOW
    else RANK_RED
  }

  /** `getHexColor`: four score bands; the red band is also more transparent. */
  function HexColor(score: int): (c: Rgba)
    ensures c == HEX_GREEN <==> 70 <= score
    ensures c == HEX_LIGHT_GREEN <==> 50 <= score < 70
    ensures c == HEX_YELLOW <==> 30 <= score < 50
    ensures c == HEX_RED <==> score < 30
    ensures c.a == 150 <==> 30 <= score
    ensures c.a == 120 <==> score < 30
  {
    if score >= 70 then HEX_GREEN
    else if score >= 50 then HEX_LIGHT_GREEN
    else if score >= 30 then HEX_YELLOW
    else HEX_RED
  }

  /** The position of a hexagon colour on the scale, red (0) to green (3). */
  function HexLevel(c: Rgba): nat
  {
    if c == HEX_GREEN then 3
    else if c == HEX_LIGHT_GREEN then 2
    else if c == HEX_YELLOW then 1
    else 0
  }

  /** A higher score never gets a lower band. */
  lemma HexColorMonotone(s1: int, s2: int)
    requires s1 <= s2
    ensures HexLevel(HexColor(s1)) <= HexLevel(HexColor(s2))
  {
  }

  /** The ranking class of the restaurant panel's scenario rows. The dashboard writes the same
      thresholds out again in its own expression; `Dashboard.RankClassMatchesMapView` proves that
      the two sites agree. */
  function RankingClass(rank: int): (cls: string)
    ensures cls == "top" <==> rank <= 3
    ensures cls == "mid" <==> 3 < rank <= 5
    ensures cls == "low" <==> 5 < rank
  {
    if rank <= 3 then "top" else if rank <= 5 then "mid" else "low"
  }

  /** The panel's class and the marker colour put every rank in the same band. */
  lemma RankingClassMatchesRankColor(rank: int)
    ensures RankingClass(rank) == "top" <==> RankColor(rank) == RANK_GREEN
    ensures RankingClass(rank) == "mid" <==> RankColor(rank) == RANK_YELLOW
    ensures RankingClass(rank) == "low" <==> RankColor(rank) == RANK_RED
  {
  }

  /** The fields of a restaurant the modelled helpers read. */
  datatype Restaurant = Restaurant(id: int, name: string, rankings: map<string, int>, isYou: bool)

  const SCENARIOS: seq<string> := ["overall", "date_night", "business_lunch", "avoid_tourist", "coffee_spot"]

  function Rankings(overall: int, dateNight: int, businessLunch: int, avoidTourist: int, coffeeSpot: int): map<string, int>
  {
    map["overall" := overall, "date_night" := dateNight, "business_lunch" := businessLunch,
        "avoid_tourist" := avoidTourist, "coffee_spot" := coffeeSpot]
  }

  const FRENCH_RESTAURANTS: seq<Restaurant> := [
    Restaurant(1, "Hubert", Rankings(1, 1, 2, 3, 8), false),
    Restaurant(2, "Bistrot 916", Rankings(3, 4, 5, 2, 6), true),
    Restaurant(3, "Felix", Rankings(2, 2, 1, 6, 9), false),
    Restaurant(4, "Bistro Rex", Rankings(5, 6, 4, 4, 7), false),
    Restaurant(5, "Brasserie Bread", Rankings(7, 9, 8, 1, 2), false),
    Restaurant(6, "Restaurant Hubert", Rankings(4, 3, 3, 5, 10), false)
  ]

  /** Every restaurant of the fixture list is ranked in every scenario, and only one is "you". */
  lemma FixtureRankedEverywhere()
    ensures forall i, s :: 0 <= i < |FRENCH_RESTAURANTS| && s in SCENARIOS ==> s in FRENCH_RESTAURANTS[i].rankings
    ensures forall i :: 0 <= i < |FRENCH_RESTAURANTS| ==> (FRENCH_RESTAURANTS[i].isYou <==> i == 1)
  {
  }

  /** Restaurant to its rank in the scenario (only applied to restaurants ranked in it). */
  function RankIn(scenario: string): Restaurant -> int
  {
    (r: Restaurant) => if scenario in r.rankings then r.rankings[scenario] else 0
  }

  datatype Ranked = Ranked(restaurant: Restaurant, displayRank: int)

  predicate RankedIn(rs: seq<Restaurant>, scenario: string)
  {
    forall i :: 0 <= i < |rs| ==> scenario in rs[i].rankings
  }

  /** `getLeaderboard`: a sorted copy, ascending by the scenario's rank, numbered from 1. Ties keep
      their order in the list (the sort is stable). */
  function Leaderboard(rs: seq<Restaurant>, scenario: string): (board: seq<Ranked>)
    requires RankedIn(rs, scenario)
    ensures |board| == |rs|
    ensures forall i :: 0 <= i < |board| ==> board[i].displayRank == i + 1
    ensures multiset(Restaurants(board)) == multiset(rs)
    ensures forall i :: 0 <= i < |board| ==> scenario in board[i].restaurant.rankings
    ensures forall i, j :: 0 <= i < j < |board| ==>
      board[i].restaurant.rankings[scenario] <= board[j].restaurant.rankings[scenario]
    ensures forall k :: WithKey(Restaurants(board), RankIn(scenario), k) == WithKey(rs, RankIn(scenario), k)
  {
    var sorted := SortBy(rs, RankIn(scenario));
    SortByIsPermutation(rs, RankIn(scenario));
    SortByIsSorted(rs, RankIn(scenario));
    LeaderboardStable(rs, scenario);
    var board := seq(|sorted|, i requires 0 <= i < |sorted| => Ranked(sorted[i], i + 1));
    assert Restaurants(board) == sorted;
    forall i | 0 <= i < |sorted| ensures scenario in sorted[i].rankings {
      assert sorted[i] in multiset(rs);
    }
    board
  }

  function Restaurants(board: seq<Ranked>): seq<Restaurant>
  {
    seq(|board|, i requires 0 <= i < |board| => board[i].restaurant)
  }

  lemma LeaderboardStable(rs: seq<Restaurant>, scenario: string)
    ensures forall k :: WithKey(SortBy(rs, RankIn(scenario)), RankIn(scenario), k) == WithKey(rs, RankIn(scenario), k)
  {
    forall k ensures WithKey(SortBy(rs, RankIn(scenario)), RankIn(scenario), k) == WithKey(rs, RankIn(scenario), k) {
      SortByIsStable(rs, RankIn(scenario), k);
    }
  }

  /** The restaurant marker: blue for your own restaurant whatever its rank; otherwise the rank
      colour, and red when the restaurant has no rank in the scenario (both comparisons with
      `undefined` are false). */
  function MarkerColor(r: Restaurant, scenario: string): (c: Rgba)
    ensures r.isYou ==> c == YOU_BLUE
    ensures !r.isYou && scenario in r.rankings ==> c == RankColor(r.rankings[scenario])
    ensures !r.isYou && scenario !in r.rankings ==> c == RANK_RED
  {
    if r.isYou then YOU_BLUE
    else if scenario in r.rankings then RankColor(r.rankings[scenario])
    else RANK_RED
  }

  /** Only your own restaurant's marker is blue. */
  lemma BlueMeansYou(r: Restaurant, scenario: string)
    ensures MarkerColor(r, scenario) == YOU_BLUE <==> r.isYou
  {
  }

  const IsYou: Restaurant -> bool := (r: Restaurant) => r.isYou

  /** The hexagon insight: when a recommendation is yours, the 1-based position of the first one. */
  function InsightRank(recommendations: Option<seq<Restaurant>>): (rank: Option<nat>)
    ensures rank.Some? <==> recommendations.Some? && exists i :: 0 <= i < |recommendations.value| && recommendations.value[i].isYou
    ensures rank.Some? ==>
      var recs := recommendations.value;
      1 <= rank.value <= |recs| && recs[rank.value - 1].isYou &&
      forall j :: 0 <= j < rank.value - 1 ==> !recs[j].isYou
  {
    match recommendations
    case None => None
    case Some(recs) =>
      match Seqs.Find(recs, IsYou)
      case None => None
      case Some(_) => Some(Seqs.FindIndex(recs, IsYou).value + 1)
  }
}
