/**
 * The classification helpers of the dashboard page: the dominance-score colour and label, the
 * week-on-week trend text, and the scenario rows' rank class and mini trend.
 */
module Dashboard {
  import opened Common
  import MapView

  const GREEN: string := "#22c55e"
  const YELLOW: string := "#eab308"
  const RED: string := "#ef4444"

  /** `getScoreColor`: green from 70, yellow from 40, red below. */
  function ScoreColor(score: int): (c: string)
    ensures c == GREEN <==> 70 <= score
    ensures c == YELLOW <==> 40 <= score < 70
    ensures c == RED <==> score < 40
  {
    if score >= 70 then GREEN else if score >= 40 then YELLOW else RED
  }

  /** `getScoreLabel`: on the same thresholds as the colour. */
  function ScoreLabel(score: int): (l: string)
    ensures l == "Excellent" <==> 70 <= score
    ensures l == "Average" <==> 40 <= score < 70
    ensures l == "At Risk" <==> score < 40
  {
    if score >= 70 then "Excellent" else if score >= 40 then "Average" else "At Risk"
  }

  /** The label each colour stands for. */
  function LabelOfColor(c: string): string
  {
    if c == GREEN then "Excellent" else if c == YELLOW then "Average" else "At Risk"
  }

  /** The badge's colour and its label always tell the same story. */
  lemma ColorAndLabelAgree(score: int)
    ensures ScoreLabel(score) == LabelOfColor(ScoreColor(score))
  {
  }

  datatype Direction = Up | Down

  /** A rendered trend: its CSS direction, its sign glyph and its magnitude. */
  datatype TrendText = TrendText(direction: Direction, sign: char, magnitude: nat)

  /** The dominance card's and the competitor rows' trend: "+" and "up" for a trend of 0 or more,
      then the absolute value. */
  function Trend(trend: int): (t: TrendText)
    ensures t.sign == '+' <==> trend >= 0
    ensures t.sign == '-' <==> trend < 0
    ensures t.direction == Up <==> trend >= 0
    ensures t.magnitude == if trend >= 0 then trend else -trend
  {
    if trend >= 0 then TrendText(Up, '+', trend) else TrendText(Down, '-', -trend)
  }

  /** The number a reader takes from a rendered trend. */
  function ValueOf(t: TrendText): int
  {
    if t.sign == '+' then t.magnitude else -(t.magnitude as int)
  }

  /** The text loses nothing: the trend can be read back from it. */
  lemma TrendRoundTrip(trend: int)
    ensures ValueOf(Trend(trend)) == trend
  {
  }

  /** A scenario row's mini trend: not rendered for a trend of 0; otherwise "+" and "up" exactly
      when the trend is positive. */
  function MiniTrend(trend: int): (t: Option<TrendText>)
    ensures t.None? <==> trend == 0
    ensures t.Some? ==> (t.value.sign == '+' <==> trend > 0) && (t.value.direction == Up <==> trend > 0)
    ensures t.Some? ==> ValueOf(t.value) == trend
  {
    if trend == 0 then None
    else if trend > 0 then Some(TrendText(Up, '+', trend))
    else Some(TrendText(Down, '-', -trend))
  }

  /** Where a mini trend is rendered, it reads exactly like the card's trend. */
  lemma MiniTrendMatchesTrend(trend: int)
    requires trend != 0
    ensures MiniTrend(trend) == Some(Trend(trend))
  {
  }

  /** A scenario row's rank class: a separate expression from the map page's panel class, on the
      same thresholds. */
  function ScenarioRankClass(rank: int): (cls: string)
    ensures cls == "top" <==> rank <= 3
    ensures cls == "mid" <==> 3 < rank <= 5
    ensures cls == "low" <==> 5 < rank
  {
    if rank <= 3 then "top" else if rank <= 5 then "mid" else "low"
  }

  /** The dashboard and the map page put every rank in the same class. */
  lemma RankClassMatchesMapView(rank: int)
    ensures ScenarioRankClass(rank) == MapView.RankingClass(rank)
  {
  }
}
