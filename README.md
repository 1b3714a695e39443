# LocalGEO in Dafny

LocalGEO measures how visible local businesses are in AI assistants' recommendations, cell by cell
on a hexagonal (H3) grid. This project models its core and proves properties of the model:

- **Mock heat-map data** (`server/mock-data.js`). This covers:
  - the visibility score of a business under a prompt type;
  - the aggregation of the nearby businesses' scores into one cell record (average, maximum, top
    three, competition);
  - the numbered business list.
- **Heat-map server** (`server/index.js`). It holds the per-prompt-type cache filled at start-up and
  four handlers:
  - the heat map with its prompt-type fallback and bounding-box filter;
  - the business list with its district and category filters;
  - the per-business visibility lookup;
  - the simulated free scan.
- **Places enricher** (`GoldEater/places/eater.py`). It covers the text search, the details lookup
  with the first-match cuisine mapping, the price-range mapping, and the resolution of a raw
  business name into a business profile.
- **Scan orchestrator** (`GoldEater/orchestrator.py`). It covers:
  - the district grid;
  - the enumeration of one task per (cell, platform, prompt type, tap);
  - the sequential execution that skips failing scans;
  - the in-place back-fill of every result's location from the enricher.
- **Page helpers** (`src/pages/MapView.jsx`, `src/pages/Dashboard.jsx`): colour and label bands, the
  rank classes, the per-scenario leaderboard, the marker colour, the hexagon insight and the trend
  texts.

Modules:

- `Common` holds `Option`, `Result` and JavaScript truthiness of an optional string.
- `Seqs` holds `Filter`, `Find`, `FindIndex` and subsequences, with their lemmas.
- `Sorting` holds a stable insertion sort by an integer key. `Array.prototype.sort` is stable.
- `MockData`, `ServerApi`, `Places`, `Orchestrator`, `MapView` and `Dashboard` follow the source
  files.

Conventions:

- Coordinates are integers in millionths of a degree.
- Every random draw, clock value, uuid, H3 library call, HTTP reply and AI scanner is a parameter.
  Each draw is constrained to the range the source's expression produces.
- A JavaScript query or body field is an `Option`: an `Option<string>` for names, filters and prompt types, and an `Option<int>` for the bounding-box fields and the business id. Both `None` and `""` are falsy.
- The orchestrator works step by step, so it is modelled with methods and loops proved against
  recursive specification functions:
  - the task list is built by nested loops appending to one sequence;
  - the results are back-filled in place in an `array`.
- The server's start-up cache loop, the visibility object's `forEach` and the
  `/api/business/:id/visibility` handler that calls it are methods too.
- In the enricher, the cuisine loop, the details lookup that calls it and the name resolution that calls the details lookup are methods.
- Everything else is functions.

## Model

| member | source | states |
|---|---|---|
| MockData.BaseScore | server/mock-data.js:51-52 | the table's value (85/55/25 for top/mid/low) for a known tier, and 50 exactly when the tier is not in the table |
| MockData.CategoryBonus | server/mock-data.js:55-63 | a prompt/category pair in the table gets its table value, which is never 0; any pair missing from the table gets 0; the bonus lies in -30..25 |
| MockData.CalculateVisibility | server/mock-data.js:50-69 | the score lies in 0..100; it equals base+bonus+noise when that sum is in range, 0 below and 100 above |
| MockData.VisibilityMonotoneInNoise | server/mock-data.js:66-68 | a larger noise draw never lowers the score |
| MockData.CoffeeSpotBeatsBusinessLunch | server/mock-data.js:55-68 | a top-tier cafe scores 100 as a coffee spot for every noise, and 90+noise as a business lunch |
| MockData.ScoreAll | server/mock-data.js:135-137 | one score per nearby business, same names, each in 0..100 |
| MockData.RoundedMean | server/mock-data.js:140-142 | Math.round(sum/n) as the integer r with 2n·r ≤ 2·sum+n < 2n·(r+1) |
| MockData.MeanBounds | server/mock-data.js:140-142 | a rounded mean of values in lo..hi stays in lo..hi |
| MockData.SumSortBy | server/mock-data.js:138-142 | sorting the scores leaves their sum unchanged, so averaging the sorted list averages the scores |
| MockData.SumInsertBy | server/mock-data.js:138-141 | inserting an entry into a sorted list adds its score to the sum |
| MockData.SumBounds | server/mock-data.js:141 | the sum of n scores in lo..hi lies in n·lo..n·hi |
| MockData.RankedFacts | server/mock-data.js:135-138 | the scores sorted descending form a permutation of the scores, ordered non-increasing and all in 0..100 |
| MockData.ScoreSummaryFacts | server/mock-data.js:138-150 | for a non-empty list, avg ≤ max, max is the largest score and is attained, and some score is at most avg |
| MockData.AggregateCell | server/mock-data.js:89-155 | for a non-empty cell, avg is Math.round of the mean of the businesses' scores; the cell record keeps 0 ≤ avg ≤ max ≤ 100, count = n and competition = min(100, 15n); the top list has min(3, n) names; an empty cell gets the baseline as both avg and max, with competition 0 |
| MockData.TopBusinessesAreHighest | server/mock-data.js:135-152 | the top list names the first min(3, n) entries of the descending stable sort, a permutation of the scores, with ties in list order |
| MockData.SingleBusinessCell | server/mock-data.js:135-153 | with one nearby business, top = [its name], avg = max = its score, and competition is 15 |
| MockData.GenerateHeatmapData | server/mock-data.js:86-156 | one valid record per cell, in grid order, under the requested prompt type |
| MockData.GenerateBusinessList | server/mock-data.js:170-177 | the i-th business has id i+1, the fixture's fields, its cell index and district "Surry Hills" |
| ServerApi.InitHeatmapCache | server/index.js:16-22 | the cache has exactly the prompt types as keys, each holding that type's generated data, and every cached record is valid |
| ServerApi.Heatmap | server/index.js:29-55 | echoes the prompt type (default Generic_Best); an unknown type falls back to Generic_Best's records; without all four bounds the data is the cached list; with them a record is returned exactly when it lies in the inclusive box; the data is a subsequence of the cached list and count is its length |
| ServerApi.HeatmapFacts | server/index.js:39-47 | the bounding-box filter keeps exactly the in-box records, in order |
| ServerApi.UnknownPromptServesGenericBest | server/index.js:36 | an uncached prompt type is served Generic_Best's records under its own name |
| ServerApi.Businesses | server/index.js:61-76 | a business is listed exactly when it matches every truthy filter; the result is a subsequence of the list; no filter returns the list unchanged; count is the length |
| ServerApi.BusinessesFacts | server/index.js:64-70 | the district filter followed by the category filter equals one filter on both conditions |
| ServerApi.FindBusiness | server/index.js:83-86 | not found exactly when no business has the id; otherwise a listed business with that id |
| ServerApi.GeneratedListLookup | server/index.js:83 | in the generated list, id k finds the k-th business for 1 ≤ k ≤ n and nothing otherwise |
| ServerApi.VisibilityMap | server/index.js:88-95 | one entry per prompt type: the cell's maximum when the business is in that cell's top list, else a draw in 20..59; all values lie in 0..100 when the cache is valid |
| ServerApi.BusinessVisibility | server/index.js:82-102 | 404 exactly when no business has the id; otherwise the business, its visibility map and the prompt types |
| ServerApi.FreeScan | server/index.js:116-164 | 400 exactly when the business name or the city is falsy; otherwise mentions are 2..9 when visible and 0..1 when not, each competitor's diff is its mentions minus ours, and platform scores lie in 5..79 |
| ServerApi.FreeScanOrdering | server/index.js:124-164 | a visible scan reports more mentions than an invisible one, and the competitors are in strictly decreasing diff order |
| Places.PriceLevelToRange | GoldEater/places/eater.py:174-179 | a range only for levels 1..4, and then exactly `level` dollar signs |
| Places.SearchPlace | GoldEater/places/eater.py:34-80 | nothing when the status is not OK or the results are missing or empty; otherwise the first result, with address "" when absent |
| Places.FirstCuisine | GoldEater/places/eater.py:121-124 | the mapping of the first mapped type, and nothing exactly when no type is mapped |
| Places.CuisineOf | GoldEater/places/eater.py:108-124 | the loop with `break` computes the first-match cuisine |
| Places.GetPlaceDetails | GoldEater/places/eater.py:82-138 | nothing exactly when the status is not OK; otherwise name, address, position, price level, rating, rating count, opening hours, website and phone copied from the result, and the first-match cuisine |
| Places.ResolveAndCreateBusiness | GoldEater/places/eater.py:140-172 | an HTTP failure raises; a failed search resolves nothing; otherwise the first place becomes the business, with the cuisine taken from details only when they are OK and the price range from the search's price level |
| Orchestrator.DistrictPolygon | GoldEater/orchestrator.py:45-51 | a closed ring of five vertices, counter-clockwise: south-west, south-east, north-east, north-west, and back to south-west |
| Orchestrator.RingIsRectangle | GoldEater/orchestrator.py:45-51 | for non-degenerate bounds, the four corners are distinct and each edge is axis-parallel |
| Orchestrator.ConfiguredDistrictsAreRectangles | GoldEater/shared/config.py:56-71 | each configured district is non-degenerate, with its centre strictly inside |
| Orchestrator.GridFor | GoldEater/orchestrator.py:54-60 | one entry per cell index the library returns, in order, with that cell's centre |
| Orchestrator.GenerateH3Grid | GoldEater/orchestrator.py:33-62 | an unknown district raises; otherwise the loop builds the grid for the district's ring at resolution 10 |
| Orchestrator.OrDefault | GoldEater/orchestrator.py:80-81 | an absent or empty list means all platforms or prompt types |
| Orchestrator.EnumerateTasks | GoldEater/orchestrator.py:97-111 | the nested loops build exactly the cell, platform, prompt type, tap enumeration |
| Orchestrator.AppendCellTasks | GoldEater/orchestrator.py:99-111 | the platform loop appends one cell's tasks |
| Orchestrator.AppendPromptTasks | GoldEater/orchestrator.py:100-111 | the prompt-type and tap loops append one (cell, platform)'s tasks |
| Orchestrator.TaskCount | GoldEater/orchestrator.py:91-111 | there are \|grid\|·\|platforms\|·\|prompt types\|·2 tasks, the count the run announces |
| Orchestrator.TaskAt | GoldEater/orchestrator.py:97-111 | the task at position ((c·P+p)·Q+q)·2+t has cell c, platform p, prompt type q and tap t+1 |
| Orchestrator.GridTasksShareRun | GoldEater/orchestrator.py:102-111 | every task carries the run's id and district |
| Orchestrator.TapTasksAt | GoldEater/orchestrator.py:101-111 | the taps of one (cell, platform, prompt type) are numbered 1..n in order |
| Orchestrator.CollectSequential | GoldEater/orchestrator.py:130-139 | the loop collects the jobs and the concatenated results of the tasks whose scan returned, in task order |
| Orchestrator.SucceededJobsCount | GoldEater/orchestrator.py:132-139 | at most one job per task, and one per task exactly when no scan raised |
| Orchestrator.CollectedResultsOrigin | GoldEater/orchestrator.py:134-136 | every collected result was returned by some task's successful scan |
| Orchestrator.Backfilled | GoldEater/orchestrator.py:167-200 | a result changes only when its name is non-empty, the district is known and the name resolves; then the five location fields come from the business, and job id, name, rank, cuisine and price level never change |
| Orchestrator.BackfilledIdempotent | GoldEater/orchestrator.py:184-191 | with the same enricher answers, back-filling an already back-filled result changes nothing |
| Orchestrator.SameNameSamePlace | GoldEater/orchestrator.py:184-191 | when a non-empty raw name resolves in a known district, all results with that name get the same place |
| Orchestrator.ResolveLocations | GoldEater/orchestrator.py:167-200 | with one resolution per distinct name, visited in any order, every array slot ends up as the back-fill of its old value |
| Orchestrator.RunFullScan | GoldEater/orchestrator.py:64-152 | an unknown district raises before any scan; otherwise it returns the run id, the successful jobs, the un-back-filled results it saves, and the back-filled results |
| MapView.RankColor | src/pages/MapView.jsx:106-110 | green exactly for rank ≤ 3, yellow exactly for 4..5, red exactly above 5 |
| MapView.HexColor | src/pages/MapView.jsx:112-117 | four bands at 70/50/30; alpha 150 exactly from 30, otherwise 120 |
| MapView.HexColorMonotone | src/pages/MapView.jsx:112-117 | a higher score never gets a lower band |
| MapView.RankingClass | src/pages/MapView.jsx:374 | top for rank ≤ 3, mid for 4..5, low above |
| MapView.RankingClassMatchesRankColor | src/pages/MapView.jsx:374 | the panel class and the marker colour band agree for every rank |
| MapView.FixtureRankedEverywhere | src/pages/MapView.jsx:29-103 | every fixture restaurant has a rank in every scenario, and only Bistrot 916 is "you" |
| MapView.Leaderboard | src/pages/MapView.jsx:210-214 | a permutation of the restaurants, ascending by the scenario's rank, stable on ties, with displayRank = position + 1 |
| MapView.LeaderboardStable | src/pages/MapView.jsx:211-212 | restaurants with equal rank keep their list order |
| MapView.MarkerColor | src/pages/MapView.jsx:243-246 | blue for your restaurant whatever its rank; otherwise the rank colour, and red without a rank |
| MapView.BlueMeansYou | src/pages/MapView.jsx:243-246 | a marker is blue exactly when it is your restaurant |
| MapView.InsightRank | src/pages/MapView.jsx:451-452 | a rank exactly when a recommendation is yours, namely 1 + the index of the first one |
| Dashboard.ScoreColor | src/pages/Dashboard.jsx:34-38 | green exactly from 70, yellow for 40..69, red below 40 |
| Dashboard.ScoreLabel | src/pages/Dashboard.jsx:40-44 | Excellent, Average and At Risk on the same thresholds |
| Dashboard.ColorAndLabelAgree | src/pages/Dashboard.jsx:34-44 | the label is always the one belonging to the colour |
| Dashboard.Trend | src/pages/Dashboard.jsx:87-88 | "+" and up exactly when trend ≥ 0, followed by \|trend\| |
| Dashboard.TrendRoundTrip | src/pages/Dashboard.jsx:87-88 | the trend can be read back from its text |
| Dashboard.MiniTrend | src/pages/Dashboard.jsx:185-189 | rendered exactly when trend ≠ 0, "+" exactly when positive, and it reads back to the trend |
| Dashboard.MiniTrendMatchesTrend | src/pages/Dashboard.jsx:185-189 | where rendered, the mini trend reads exactly like the card's trend |
| Dashboard.ScenarioRankClass | src/pages/Dashboard.jsx:182 | top for rank ≤ 3, mid for 4..5, low above |
| Dashboard.RankClassMatchesMapView | src/pages/Dashboard.jsx:182 | the dashboard and the map page classify every rank alike |
| Seqs.FilterMembership | server/index.js:41-46 | a filtered list holds exactly the matching elements and is no longer than the list |
| Seqs.FilterIsSubsequence | server/index.js:41-46 | filtering keeps the list's order |
| Seqs.FilterTwice | server/index.js:65-70 | two successive filters equal one filter on the conjunction |
| Seqs.FindIndex | src/pages/MapView.jsx:452 | findIndex: the first matching index, and nothing exactly when none matches |
| Seqs.Find | server/index.js:83 | find: the element at the first matching index, and nothing exactly when none matches |
| Sorting.SortByIsSorted | server/mock-data.js:138 | the sorted list is ordered by key |
| Sorting.SortByIsPermutation | server/mock-data.js:138 | the sorted list holds the same elements, each as often |
| Sorting.SortByIsStable | server/mock-data.js:138 | for every key, the elements with that key keep their relative order |

## Left out

- H3 library calls (`polygonToCells`, `cellToLatLng`, `latLngToCell`, `polygon_to_cells`, `cell_to_latlng`, `latlng_to_cell`) are parameters. Their geometry is not modelled.
- Floating-point geometry is not modelled:
  - the 150 m nearby test with `cos` and 111000 m per degree;
  - the position-seeded baseline of an empty cell;
  - the map page's float scenario scores for the hexagon fill.
  - Instead, each cell's nearby fixtures and its baseline (0..59) are inputs.
- MockData.RoundedMean: rounds the exact rational mean. The floating-point division before `Math.round` is not modelled.
- `Math.random`, `uuid4`, `datetime.utcnow`, the Express wiring, CORS, `app.listen` and the 1.5 s `setTimeout` are not modelled.
  - Random draws are parameters constrained to their ranges.
  - The run id is a parameter.
- `parseFloat`/`parseInt` are not modelled. Bounds and ids arrive as integers, so NaN comparisons do not arise.
- Free-scan static text is not modelled: the why-not-me advice, the citation audit and the hallucination texts. Only the platforms named in a hallucination are kept.
- The second empty-list branch of `generateHeatmapData` (server/mock-data.js:120-132) cannot be reached after the first one and is not modelled.
- Inherited-property keys are not modelled: a prompt type such as `"constructor"` or `"__proto__"` would find a value on the lookup tables' prototype.
- ServerApi.VisibilityMap: requires every prompt type to be cached, as the start-up loop guarantees. The TypeError on an uncached type is not modelled.
- The parallel `ThreadPoolExecutor` path of `run_full_scan` is not modelled. Its result order depends on thread completion.
- Printing, database inserts and the business upsert are not modelled. The saved results are returned instead.
- The AI platform clients, `requests.get` and the Supabase client are not modelled.
  - A scan is a parameter that either raises or returns a job and results.
  - A Places reply is either an HTTP failure or a decoded body.
- A `KeyError` on a decoded JSON body missing a required key is not modelled. The decoded bodies carry those keys.
- Places.SearchPlace and Places.TypesOf: an explicit JSON `null` is modelled as an absent key. The source's `get('formatted_address', '')` would return `None` for a null address rather than `""`, and a null `types` would make the cuisine loop raise a `TypeError` rather than iterate an empty list.
- Places.GetPlaceDetails: `opening_hours.weekday_text` arrives already extracted as one optional field, so the `get('opening_hours', {})` step is not modelled separately.
- Orchestrator.ResolveLocations: the results are values in an array, so aliasing between `ScanResult` objects is not captured. A raised resolution and an unresolved name both leave the results unchanged.
- ScanResult holds only the fields the orchestrator reads or writes. Reasoning, tags, sentiment, citations and the raw response are omitted.
- MapView.Leaderboard: requires every restaurant to have a rank in the scenario, which holds for the fixture list in every scenario. A missing rank makes the comparator return NaN, and that order is not modelled.
- Restaurant and recommendation fields other than id, name, rankings and "you" are omitted. These are address, description, cuisine, scores, tags, local rank and local score.
- The random recommendation shuffle is not modelled.
- The Landing and ScanResult pages, component state, hooks and modals are not modelled.
- The prompt templates are not part of this model.
- The configuration and model modules are modelled as constants and datatypes.
