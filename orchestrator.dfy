/**
 * The scan orchestrator: it covers a district with hexagonal cells, enumerates one scan task per
 * (cell, platform, prompt type, tap), runs the tasks one after another, and back-fills the
 * location of every result whose raw business name the Places enricher resolves.
 *
 * The hexagonal-grid library, the AI platform scanners and the enricher are parameters: a
 * scanner either raises or returns a job with its results; the enricher returns a `ResolveOutcome`.
 */
module Orchestrator {
  import opened Common
  import Places

  const PLATFORMS: seq<string> := ["chatgpt", "perplexity", "gemini", "claude"]

  const PROMPT_TYPES: seq<string> :=
    ["generic_best", "date_night", "business_lunch", "avoid_tourist", "coffee_spot"]

  /** Resolution 10: cells of about 66 m edge. */
  const H3_RESOLUTION: nat := 10

  /** Every (cell, platform, prompt type) is asked this many times. */
  const TAP_COUNT: nat := 2

  /** A district's rectangle and centre, in millionths of a degree. */
  datatype DistrictBounds = DistrictBounds(north: int, south: int, west: int, east: int, centerLat: int, centerLng: int)

  const DISTRICT_BOUNDS: map<string, DistrictBounds> := map[
    "surry_hills" := DistrictBounds(-33_875000, -33_895000, 151_205000, 151_225000, -33_885000, 151_215000),
    "newtown" := DistrictBounds(-33_890000, -33_910000, 151_170000, 151_190000, -33_897000, 151_179000)
  ]

  /** A polygon vertex as the grid library takes it: (longitude, latitude). */
  datatype Vertex = Vertex(lng: int, lat: int)

  datatype GridCell = GridCell(h3Index: string, lat: int, lng: int)

  datatype Task = Task(
    h3Index: string, lat: int, lng: int, district: string, platform: string,
    promptType: string, scanRunId: string, tapNumber: int)

  datatype ScanJob = ScanJob(id: string, h3Index: string, platform: string, promptType: string, scanRunId: string, tapNumber: int)

  /** The fields of a scan result that the orchestrator reads or writes. */
  datatype ScanResult = ScanResult(
    jobId: string, rawName: string, rankPosition: int,
    normalizedName: Option<string>, businessLat: Option<int>, businessLng: Option<int>,
    businessAddress: Option<string>, googlePlaceId: Option<string>,
    cuisineType: Option<string>, priceLevel: Option<int>)

  datatype ScanOutcome = ScanRaised | ScanDone(job: ScanJob, results: seq<ScanResult>)

  datatype ScanError = UnknownDistrict(district: string)

  /** The fixed parameters of one scan run. */
  datatype Run = Run(district: string, scanRunId: string, platforms: seq<string>, promptTypes: seq<string>)

  // ----- generate_h3_grid -----

  /** The district rectangle as a closed ring, counter-clockwise from the south-west corner. */
  function DistrictPolygon(b: DistrictBounds): (ring: seq<Vertex>)
    ensures |ring| == 5 && ring[0] == ring[4]
    ensures ring[0] == Vertex(b.west, b.south) && ring[1] == Vertex(b.east, b.south)
    ensures ring[2] == Vertex(b.east, b.north) && ring[3] == Vertex(b.west, b.north)
  {
    [Vertex(b.west, b.south), Vertex(b.east, b.south), Vertex(b.east, b.north),
     Vertex(b.west, b.north), Vertex(b.west, b.south)]
  }

  /** Of a non-degenerate rectangle, the ring's first four vertices are its four distinct corners,
      and consecutive vertices differ in exactly one coordinate. */
  lemma RingIsRectangle(b: DistrictBounds)
    requires b.south < b.north && b.west < b.east
    ensures var ring := DistrictPolygon(b);
      && (forall i, j :: 0 <= i < j < 4 ==> ring[i] != ring[j])
      && (forall i :: 0 <= i < 4 ==> (ring[i].lng == ring[i + 1].lng) != (ring[i].lat == ring[i + 1].lat))
  {
  }

  /** Every configured district is a non-degenerate rectangle around its centre. */
  lemma ConfiguredDistrictsAreRectangles()
    ensures forall d :: d in DISTRICT_BOUNDS ==>
      var b := DISTRICT_BOUNDS[d];
      b.south < b.centerLat < b.north && b.west < b.centerLng < b.east
  {
  }

  /** One (index, centre) entry per cell index the library returns for the district's ring. */
  function GridFor(b: DistrictBounds, polygonToCells: (seq<Vertex>, nat) -> seq<string>, cellToLatLng: string -> (int, int))
    : (grid: seq<GridCell>)
    ensures var idxs := polygonToCells(DistrictPolygon(b), H3_RESOLUTION);
      |grid| == |idxs| &&
      forall i :: 0 <= i < |grid| ==> grid[i].h3Index == idxs[i] && (grid[i].lat, grid[i].lng) == cellToLatLng(idxs[i])
  {
    var idxs := polygonToCells(DistrictPolygon(b), H3_RESOLUTION);
    seq(|idxs|, i requires 0 <= i < |idxs| => GridCell(idxs[i], cellToLatLng(idxs[i]).0, cellToLatLng(idxs[i]).1))
  }

  /** `generate_h3_grid`: an unknown district raises before any cell is computed. */
  method GenerateH3Grid(district: string, polygonToCells: (seq<Vertex>, nat) -> seq<string>, cellToLatLng: string -> (int, int))
    returns (r: Result<seq<GridCell>, ScanError>)
    ensures r.Err? <==> district !in DISTRICT_BOUNDS
    ensures r.Err? ==> r.error == UnknownDistrict(district)
    ensures r.Ok? ==> r.value == GridFor(DISTRICT_BOUNDS[district], polygonToCells, cellToLatLng)
  {
    if district !in DISTRICT_BOUNDS {
      return Err(UnknownDistrict(district));
    }
    var polygon := DistrictPolygon(DISTRICT_BOUNDS[district]);
    var idxs := polygonToCells(polygon, H3_RESOLUTION);
    var grid: seq<GridCell> := [];
    var i := 0;
    while i < |idxs|
      invariant 0 <= i <= |idxs|
      invariant |grid| == i
      invariant forall k :: 0 <= k < i ==> grid[k] == GridCell(idxs[k], cellToLatLng(idxs[k]).0, cellToLatLng(idxs[k]).1)
    {
      var (lat, lng) := cellToLatLng(idxs[i]);
      grid := grid + [GridCell(idxs[i], lat, lng)];
      i := i + 1;
    }
    r := Ok(grid);
  }

  // ----- task enumeration of run_full_scan -----

  /** `platforms or PLATFORMS`: `None` and the empty list both mean "all". */
  function OrDefault(given: Option<seq<string>>, all: seq<string>): (r: seq<string>)
    ensures given.Some? && given.value != [] ==> r == given.value
    ensures given.None? || given.value == [] ==> r == all
    ensures all != [] ==> r != []
  {
    if given.None? || given.value == [] then all else given.value
  }

  /** The tasks for taps 1..n of one (cell, platform, prompt type). */
  function TapTasks(run: Run, cell: GridCell, platform: string, promptType: string, n: nat): seq<Task>
  {
    if n == 0 then []
    else
      TapTasks(run, cell, platform, promptType, n - 1) +
      [Task(cell.h3Index, cell.lat, cell.lng, run.district, platform, promptType, run.scanRunId, n)]
  }

  /** The tasks for the first k prompt types of one (cell, platform). */
  function PromptTasks(run: Run, cell: GridCell, platform: string, k: nat): seq<Task>
    requires k <= |run.promptTypes|
  {
    if k == 0 then []
    else PromptTasks(run, cell, platform, k - 1) + TapTasks(run, cell, platform, run.promptTypes[k - 1], TAP_COUNT)
  }

  /** The tasks for the first m platforms of one cell. */
  function PlatformTasks(run: Run, cell: GridCell, m: nat): seq<Task>
    requires m <= |run.platforms|
  {
    if m == 0 then []
    else PlatformTasks(run, cell, m - 1) + PromptTasks(run, cell, run.platforms[m - 1], |run.promptTypes|)
  }

  /** The tasks for the first n cells of the grid. */
  function GridTasks(run: Run, grid: seq<GridCell>, n: nat): seq<Task>
    requires n <= |grid|
  {
    if n == 0 then []
    else GridTasks(run, grid, n - 1) + PlatformTasks(run, grid[n - 1], |run.platforms|)
  }

  /** Every task carries the run's id and district. */
  predicate SharesRun(tasks: seq<Task>, run: Run)
  {
    forall i :: 0 <= i < |tasks| ==> tasks[i].scanRunId == run.scanRunId && tasks[i].district == run.district
  }

  /** The two innermost loops of the enumeration: every prompt type, every tap. */
  method AppendPromptTasks(run: Run, cell: GridCell, platform: string, tasks: seq<Task>) returns (out: seq<Task>)
    ensures out == tasks + PromptTasks(run, cell, platform, |run.promptTypes|)
  {
    out := tasks;
    var q := 0;
    while q < |run.promptTypes|
      invariant 0 <= q <= |run.promptTypes|
      invariant out == tasks + PromptTasks(run, cell, platform, q)
    {
      var promptType := run.promptTypes[q];
      ghost var beforePrompt := out;
      var tap := 1;
      while tap <= TAP_COUNT
        invariant 1 <= tap <= TAP_COUNT + 1
        invariant out == beforePrompt + TapTasks(run, cell, platform, promptType, tap - 1)
      {
        out := out + [Task(cell.h3Index, cell.lat, cell.lng, run.district, platform, promptType, run.scanRunId, tap)];
        tap := tap + 1;
      }
      assert PromptTasks(run, cell, platform, q + 1) ==
        PromptTasks(run, cell, platform, q) + TapTasks(run, cell, platform, promptType, TAP_COUNT);
      q := q + 1;
    }
  }

  /** The platform loop of the enumeration, for one cell. */
  method AppendCellTasks(run: Run, cell: GridCell, tasks: seq<Task>) returns (out: seq<Task>)
    ensures out == tasks + PlatformTasks(run, cell, |run.platforms|)
  {
    out := tasks;
    var p := 0;
    while p < |run.platforms|
      invariant 0 <= p <= |run.platforms|
      invariant out == tasks + PlatformTasks(run, cell, p)
    {
      out := AppendPromptTasks(run, cell, run.platforms[p], out);
      p := p + 1;
    }
  }

  /** The outer loop of the enumeration: cells, then platforms, then prompt types, then taps. */
  method EnumerateTasks(run: Run, grid: seq<GridCell>) returns (tasks: seq<Task>)
    ensures tasks == GridTasks(run, grid, |grid|)
  {
    tasks := [];
    var c := 0;
    while c < |grid|
      invariant 0 <= c <= |grid|
      invariant tasks == GridTasks(run, grid, c)
    {
      tasks := AppendCellTasks(run, grid[c], tasks);
      c := c + 1;
    }
  }

  // ----- what the enumeration produces -----

  /** `i*K + j` with `i < m` and `j < K` indexes into `m` blocks of `K`. */
  lemma IndexBound(i: nat, m: nat, K: nat, j: nat)
    requires i < m && j < K
    ensures i * K + j < m * K
  {
    var d := m - (i + 1);
    assert m * K == i * K + K + d * K;
  }

  /** Position `i*K + j` of `a + b`, where `a` holds `m` blocks of `K` and `b` one more block. */
  lemma BlockIndex<T>(a: seq<T>, b: seq<T>, m: nat, K: nat, i: nat, j: nat)
    requires |a| == m * K && |b| == K && i <= m && j < K
    ensures i < m ==> i * K + j < |a| && (a + b)[i * K + j] == a[i * K + j]
    ensures i == m ==> i * K + j < |a + b| && (a + b)[i * K + j] == b[j]
  {
    if i < m {
      IndexBound(i, m, K, j);
    }
  }

  lemma {:induction false} TapTasksAt(run: Run, cell: GridCell, platform: string, promptType: string, n: nat)
    ensures |TapTasks(run, cell, platform, promptType, n)| == n
    ensures forall t :: 0 <= t < n ==>
      TapTasks(run, cell, platform, promptType, n)[t] ==
      Task(cell.h3Index, cell.lat, cell.lng, run.district, platform, promptType, run.scanRunId, t + 1)
  {
    if n > 0 {
      TapTasksAt(run, cell, platform, promptType, n - 1);
    }
  }

  lemma {:induction false} PromptTasksLength(run: Run, cell: GridCell, platform: string, k: nat)
    requires k <= |run.promptTypes|
    ensures |PromptTasks(run, cell, platform, k)| == k * TAP_COUNT
  {
    if k > 0 {
      PromptTasksLength(run, cell, platform, k - 1);
      TapTasksAt(run, cell, platform, run.promptTypes[k - 1], TAP_COUNT);
    }
  }

  lemma {:induction false} PromptTasksAt(run: Run, cell: GridCell, platform: string, k: nat, q: nat, t: nat)
    requires k <= |run.promptTypes| && q < k && t < TAP_COUNT
    ensures q * TAP_COUNT + t < |PromptTasks(run, cell, platform, k)|
    ensures PromptTasks(run, cell, platform, k)[q * TAP_COUNT + t] ==
      Task(cell.h3Index, cell.lat, cell.lng, run.district, platform, run.promptTypes[q], run.scanRunId, t + 1)
  {
    PromptTasksLength(run, cell, platform, k - 1);
    TapTasksAt(run, cell, platform, run.promptTypes[k - 1], TAP_COUNT);
    BlockIndex(PromptTasks(run, cell, platform, k - 1), TapTasks(run, cell, platform, run.promptTypes[k - 1], TAP_COUNT),
      k - 1, TAP_COUNT, q, t);
    if q < k - 1 {
      PromptTasksAt(run, cell, platform, k - 1, q, t);
    }
  }

  lemma {:induction false} PlatformTasksLength(run: Run, cell: GridCell, m: nat)
    requires m <= |run.platforms|
    ensures |PlatformTasks(run, cell, m)| == m * (|run.promptTypes| * TAP_COUNT)
  {
    if m > 0 {
      PlatformTasksLength(run, cell, m - 1);
      PromptTasksLength(run, cell, run.platforms[m - 1], |run.promptTypes|);
    }
  }

  lemma {:induction false} PlatformTasksAt(run: Run, cell: GridCell, m: nat, p: nat, j: nat)
    requires m <= |run.platforms| && p < m && j < |run.promptTypes| * TAP_COUNT
    ensures |PromptTasks(run, cell, run.platforms[p], |run.promptTypes|)| == |run.promptTypes| * TAP_COUNT
    ensures p * (|run.promptTypes| * TAP_COUNT) + j < |PlatformTasks(run, cell, m)|
    ensures PlatformTasks(run, cell, m)[p * (|run.promptTypes| * TAP_COUNT) + j] ==
      PromptTasks(run, cell, run.platforms[p], |run.promptTypes|)[j]
  {
    var K := |run.promptTypes| * TAP_COUNT;
    PromptTasksLength(run, cell, run.platforms[p], |run.promptTypes|);
    PlatformTasksLength(run, cell, m - 1);
    PromptTasksLength(run, cell, run.platforms[m - 1], |run.promptTypes|);
    BlockIndex(PlatformTasks(run, cell, m - 1), PromptTasks(run, cell, run.platforms[m - 1], |run.promptTypes|),
      m - 1, K, p, j);
    if p < m - 1 {
      PlatformTasksAt(run, cell, m - 1, p, j);
    }
  }

  lemma {:induction false} GridTasksLength(run: Run, grid: seq<GridCell>, n: nat)
    requires n <= |grid|
    ensures |GridTasks(run, grid, n)| == n * (|run.platforms| * (|run.promptTypes| * TAP_COUNT))
  {
    if n > 0 {
      GridTasksLength(run, grid, n - 1);
      PlatformTasksLength(run, grid[n - 1], |run.platforms|);
    }
  }

  lemma {:induction false} GridTasksAt(run: Run, grid: seq<GridCell>, n: nat, c: nat, j: nat)
    requires n <= |grid| && c < n && j < |run.platforms| * (|run.promptTypes| * TAP_COUNT)
    ensures |PlatformTasks(run, grid[c], |run.platforms|)| == |run.platforms| * (|run.promptTypes| * TAP_COUNT)
    ensures c * (|run.platforms| * (|run.promptTypes| * TAP_COUNT)) + j < |GridTasks(run, grid, n)|
    ensures GridTasks(run, grid, n)[c * (|run.platforms| * (|run.promptTypes| * TAP_COUNT)) + j] ==
      PlatformTasks(run, grid[c], |run.platforms|)[j]
  {
    var K := |run.platforms| * (|run.promptTypes| * TAP_COUNT);
    PlatformTasksLength(run, grid[c], |run.platforms|);
    GridTasksLength(run, grid, n - 1);
    PlatformTasksLength(run, grid[n - 1], |run.platforms|);
    BlockIndex(GridTasks(run, grid, n - 1), PlatformTasks(run, grid[n - 1], |run.platforms|), n - 1, K, c, j);
    if c < n - 1 {
      GridTasksAt(run, grid, n - 1, c, j);
    }
  }

  /** There is one task per cell, platform, prompt type and tap: |grid| * |platforms| * |prompt types| * 2. */
  lemma TaskCount(run: Run, grid: seq<GridCell>)
    ensures |GridTasks(run, grid, |grid|)| == |grid| * |run.platforms| * |run.promptTypes| * TAP_COUNT
  {
    GridTasksLength(run, grid, |grid|);
    var P, Q := |run.platforms|, |run.promptTypes|;
    assert |grid| * (P * (Q * TAP_COUNT)) == |grid| * P * Q * TAP_COUNT;
  }

  /** The task for cell c, platform p, prompt type q and tap t + 1 sits at the position the nesting
      order of the loops gives it, and carries exactly those coordinates. */
  lemma TaskAt(run: Run, grid: seq<GridCell>, c: nat, p: nat, q: nat, t: nat)
    requires c < |grid| && p < |run.platforms| && q < |run.promptTypes| && t < TAP_COUNT
    ensures var tasks := GridTasks(run, grid, |grid|);
      var i := ((c * |run.platforms| + p) * |run.promptTypes| + q) * TAP_COUNT + t;
      i < |tasks| &&
      tasks[i] == Task(grid[c].h3Index, grid[c].lat, grid[c].lng, run.district,
                       run.platforms[p], run.promptTypes[q], run.scanRunId, t + 1)
  {
    var P, Q := |run.platforms|, |run.promptTypes|;
    var KP := Q * TAP_COUNT;
    var KC := P * KP;
    var j1 := q * TAP_COUNT + t;
    IndexBound(q, Q, TAP_COUNT, t);
    var j2 := p * KP + j1;
    IndexBound(p, P, KP, j1);
    PromptTasksAt(run, grid[c], run.platforms[p], Q, q, t);
    PlatformTasksAt(run, grid[c], P, p, j1);
    GridTasksAt(run, grid, |grid|, c, j2);
    NestedIndex(c, p, q, t, P, Q, TAP_COUNT);
  }

  /** Row-major position of (c, p, q, t) in blocks of sizes P, Q, T. */
  lemma NestedIndex(c: int, p: int, q: int, t: int, P: int, Q: int, T: int)
    ensures c * (P * (Q * T)) + (p * (Q * T) + (q * T + t)) == ((c * P + p) * Q + q) * T + t
  {
    calc {
      ((c * P + p) * Q + q) * T + t;
    ==  { assert ((c * P + p) * Q + q) * T == (c * P + p) * Q * T + q * T; }
      (c * P + p) * Q * T + q * T + t;
    ==  { assert (c * P + p) * Q == c * P * Q + p * Q; }
      (c * P * Q + p * Q) * T + q * T + t;
    ==  { assert (c * P * Q + p * Q) * T == c * P * Q * T + p * Q * T; }
      c * P * Q * T + p * Q * T + q * T + t;
    ==  { assert c * P * Q * T == c * (P * (Q * T)); assert p * Q * T == p * (Q * T); }
      c * (P * (Q * T)) + (p * (Q * T) + (q * T + t));
    }
  }

  /** Every enumerated task belongs to the run and its district. */
  lemma {:induction false} GridTasksShareRun(run: Run, grid: seq<GridCell>, n: nat)
    requires n <= |grid|
    ensures SharesRun(GridTasks(run, grid, n), run)
  {
    if n > 0 {
      GridTasksShareRun(run, grid, n - 1);
      PlatformTasksShareRun(run, grid[n - 1], |run.platforms|);
    }
  }

  lemma {:induction false} PlatformTasksShareRun(run: Run, cell: GridCell, m: nat)
    requires m <= |run.platforms|
    ensures SharesRun(PlatformTasks(run, cell, m), run)
  {
    if m > 0 {
      PlatformTasksShareRun(run, cell, m - 1);
      PromptTasksShareRun(run, cell, run.platforms[m - 1], |run.promptTypes|);
    }
  }

  lemma {:induction false} PromptTasksShareRun(run: Run, cell: GridCell, platform: string, k: nat)
    requires k <= |run.promptTypes|
    ensures SharesRun(PromptTasks(run, cell, platform, k), run)
  {
    if k > 0 {
      PromptTasksShareRun(run, cell, platform, k - 1);
      TapTasksAt(run, cell, platform, run.promptTypes[k - 1], TAP_COUNT);
    }
  }

  // ----- sequential execution and collection -----

  /** The jobs of the tasks whose scanner returned, in task order; a raising scanner adds nothing. */
  function SucceededJobs(tasks: seq<Task>, scan: Task -> ScanOutcome): seq<ScanJob>
  {
    if tasks == [] then []
    else
      SucceededJobs(tasks[..|tasks| - 1], scan) +
      match scan(tasks[|tasks| - 1])
      case ScanRaised => []
      case ScanDone(job, _) => [job]
  }

  /** The results of the tasks whose scanner returned, concatenated in task order. */
  function CollectedResults(tasks: seq<Task>, scan: Task -> ScanOutcome): seq<ScanResult>
  {
    if tasks == [] then []
    else
      CollectedResults(tasks[..|tasks| - 1], scan) +
      match scan(tasks[|tasks| - 1])
      case ScanRaised => []
      case ScanDone(_, results) => results
  }

  /** The sequential branch of `run_full_scan`: each task's exception is caught and skipped. */
  method CollectSequential(tasks: seq<Task>, scan: Task -> ScanOutcome) returns (jobs: seq<ScanJob>, results: seq<ScanResult>)
    ensures jobs == SucceededJobs(tasks, scan)
    ensures results == CollectedResults(tasks, scan)
  {
    jobs, results := [], [];
    var i := 0;
    while i < |tasks|
      invariant 0 <= i <= |tasks|
      invariant jobs == SucceededJobs(tasks[..i], scan)
      invariant results == CollectedResults(tasks[..i], scan)
    {
      var outcome := scan(tasks[i]);
      if outcome.ScanDone? {
        jobs := jobs + [outcome.job];
        results := results + outcome.results;
      }
      assert tasks[..i + 1][..i] == tasks[..i];
      i := i + 1;
    }
    assert tasks[..i] == tasks;
  }

  /** At most one job per task, and exactly one per task if and only if no scanner raised. */
  lemma {:induction false} SucceededJobsCount(tasks: seq<Task>, scan: Task -> ScanOutcome)
    ensures |SucceededJobs(tasks, scan)| <= |tasks|
    ensures |SucceededJobs(tasks, scan)| == |tasks| <==> forall i :: 0 <= i < |tasks| ==> scan(tasks[i]).ScanDone?
  {
    if tasks != [] {
      var init, last := tasks[..|tasks| - 1], tasks[|tasks| - 1];
      SucceededJobsCount(init, scan);
      assert |SucceededJobs(tasks, scan)| == |SucceededJobs(init, scan)| + if scan(last).ScanDone? then 1 else 0;
      assert (forall i :: 0 <= i < |tasks| ==> scan(tasks[i]).ScanDone?) <==>
        (forall i :: 0 <= i < |init| ==> scan(init[i]).ScanDone?) && scan(last).ScanDone?;
    }
  }

  /** Every collected result comes from a task whose scanner returned it. */
  lemma {:induction false} CollectedResultsOrigin(tasks: seq<Task>, scan: Task -> ScanOutcome, x: ScanResult)
    requires x in CollectedResults(tasks, scan)
    ensures exists i :: 0 <= i < |tasks| && scan(tasks[i]).ScanDone? && x in scan(tasks[i]).results
  {
    var last := |tasks| - 1;
    var init := tasks[..last];
    if x in CollectedResults(init, scan) {
      CollectedResultsOrigin(init, scan, x);
      var i :| 0 <= i < |init| && scan(init[i]).ScanDone? && x in scan(init[i]).results;
      assert init[i] == tasks[i];
    } else {
      assert scan(tasks[last]).ScanDone? && x in scan(tasks[last]).results;
    }
  }

  // ----- _resolve_locations -----

  /** The enricher, called with a raw name, the district centre and the district. */
  type Resolver = (string, int, int, string) -> Places.ResolveOutcome

  /** The five location fields copied from a resolved business; nothing else changes. */
  function Backfill(r: ScanResult, b: Places.Business): ScanResult
  {
    r.(googlePlaceId := Some(b.googlePlaceId), businessLat := Some(b.lat), businessLng := Some(b.lng),
       businessAddress := Some(b.address), normalizedName := Some(b.officialName))
  }

  /** A result after `_resolve_locations`: back-filled when its raw name is non-empty, the district is
      known and the enricher resolves the name at the district centre; otherwise unchanged (a
      failed or raising resolution, and the unknown district's `KeyError`, are caught). */
  function Backfilled(r: ScanResult, district: string, resolve: Resolver): (out: ScanResult)
    ensures out.jobId == r.jobId && out.rawName == r.rawName && out.rankPosition == r.rankPosition
    ensures out.cuisineType == r.cuisineType && out.priceLevel == r.priceLevel
    ensures r.rawName == "" || district !in DISTRICT_BOUNDS ==> out == r
    ensures r.rawName != "" && district in DISTRICT_BOUNDS ==>
      var b := DISTRICT_BOUNDS[district];
      match resolve(r.rawName, b.centerLat, b.centerLng, district)
      case Resolved(biz) =>
        out.googlePlaceId == Some(biz.googlePlaceId) && out.businessLat == Some(biz.lat) &&
        out.businessLng == Some(biz.lng) && out.businessAddress == Some(biz.address) &&
        out.normalizedName == Some(biz.officialName)
      case _ => out == r
  {
    if r.rawName != "" && district in DISTRICT_BOUNDS then
      var b := DISTRICT_BOUNDS[district];
      match resolve(r.rawName, b.centerLat, b.centerLng, district)
      case Resolved(biz) => Backfill(r, biz)
      case _ => r
    else r
  }

  /** Back-filling twice changes nothing more. The enricher is a fixed function here: a second
      run of the source would query Places again and could get another answer. */
  lemma BackfilledIdempotent(r: ScanResult, district: string, resolve: Resolver)
    ensures Backfilled(Backfilled(r, district, resolve), district, resolve) == Backfilled(r, district, resolve)
  {
  }

  /** When a raw name resolves, every result with that name gets the same place. */
  lemma SameNameSamePlace(r1: ScanResult, r2: ScanResult, district: string, resolve: Resolver)
    requires r1.rawName == r2.rawName && r1.rawName != "" && district in DISTRICT_BOUNDS
    requires var b := DISTRICT_BOUNDS[district];
      resolve(r1.rawName, b.centerLat, b.centerLng, district).Resolved?
    ensures var b1, b2 := Backfilled(r1, district, resolve), Backfilled(r2, district, resolve);
      b1.googlePlaceId == b2.googlePlaceId && b1.businessLat == b2.businessLat && b1.businessLng == b2.businessLng &&
      b1.businessAddress == b2.businessAddress && b1.normalizedName == b2.normalizedName
  {
  }

  /** `_resolve_locations`: one enricher call per distinct non-empty raw name, then every result with
      that name is updated in place. The names are visited in any order. */
  method ResolveLocations(results: array<ScanResult>, district: string, resolve: Resolver)
    modifies results
    ensures forall i :: 0 <= i < results.Length ==> results[i] == Backfilled(old(results[i]), district, resolve)
  {
    ghost var original := results[..];
    var names := set i | 0 <= i < results.Length && results[i].rawName != "" :: results[i].rawName;
    assert forall i :: 0 <= i < results.Length && original[i].rawName != "" ==> original[i].rawName in names;
    var pending := names;
    while pending != {}
      invariant "" !in pending
      invariant forall i :: 0 <= i < results.Length ==>
        results[i] == if original[i].rawName in pending then original[i] else Backfilled(original[i], district, resolve)
      decreases |pending|
    {
      var name :| name in pending;
      if district in DISTRICT_BOUNDS {
        var b := DISTRICT_BOUNDS[district];
        var outcome := resolve(name, b.centerLat, b.centerLng, district);
        if outcome.Resolved? {
          var j := 0;
          while j < results.Length
            invariant 0 <= j <= results.Length
            invariant forall i :: 0 <= i < results.Length ==>
              results[i] == if original[i].rawName in pending && !(i < j && original[i].rawName == name)
                then original[i] else Backfilled(original[i], district, resolve)
          {
            if results[j].rawName == name {
              assert results[j] == original[j];
              assert Backfill(original[j], outcome.business) == Backfilled(original[j], district, resolve);
              results[j] := Backfill(results[j], outcome.business);
            }
            j := j + 1;
          }
        }
      }
      pending := pending - {name};
    }
  }

  // ----- run_full_scan -----

  /** The run's parameters, with `platforms or PLATFORMS` and `prompt_types or PROMPT_TYPES`. */
  function RunOf(district: string, scanRunId: string, platforms: Option<seq<string>>, promptTypes: Option<seq<string>>): Run
  {
    Run(district, scanRunId, OrDefault(platforms, PLATFORMS), OrDefault(promptTypes, PROMPT_TYPES))
  }

  /** `run_full_scan` on the sequential path. `scanRunId` stands for the clock-and-uuid identifier.
      Returns the run id, the jobs and results handed to the database (before back-fill), and the
      result list as `_resolve_locations` leaves it. */
  method RunFullScan(
    district: string, platforms: Option<seq<string>>, promptTypes: Option<seq<string>>, scanRunId: string,
    polygonToCells: (seq<Vertex>, nat) -> seq<string>, cellToLatLng: string -> (int, int),
    scan: Task -> ScanOutcome, resolve: Resolver)
    returns (r: Result<string, ScanError>, jobs: seq<ScanJob>, saved: seq<ScanResult>, results: seq<ScanResult>)
    ensures r.Err? <==> district !in DISTRICT_BOUNDS
    ensures r.Err? ==> r.error == UnknownDistrict(district) && jobs == [] && saved == [] && results == []
    ensures r.Ok? ==>
      var grid := GridFor(DISTRICT_BOUNDS[district], polygonToCells, cellToLatLng);
      var tasks := GridTasks(RunOf(district, scanRunId, platforms, promptTypes), grid, |grid|);
      && r.value == scanRunId
      && jobs == SucceededJobs(tasks, scan)
      && saved == CollectedResults(tasks, scan)
      && |results| == |saved|
      && forall i :: 0 <= i < |results| ==> results[i] == Backfilled(saved[i], district, resolve)
  {
    var grid := GenerateH3Grid(district, polygonToCells, cellToLatLng);
    if grid.Err? {
      return Err(grid.error), [], [], [];
    }
    var run := RunOf(district, scanRunId, platforms, promptTypes);
    var tasks := EnumerateTasks(run, grid.value);
    jobs, saved := CollectSequential(tasks, scan);
    var all := new ScanResult[|saved|](i requires 0 <= i < |saved| => saved[i]);
    ResolveLocations(all, district, resolve);
    results := all[..];
    r := Ok(scanRunId);
  }
}
