/** The mastery badge: the level a percentage falls in, the trend against
    a previous percentage, and the advice line of its tooltip. */
module Mastery {
  import opened Wrappers

  /** `Math.round`: the nearest integer, halves rounded up. */
  function RoundHalfUp(x: real): (r: int)
    ensures x - 0.5 < r as real <= x + 0.5
  {
    (x + 0.5).Floor
  }

  /** Rounding keeps a value that lies between two integers between them. */
  lemma {:induction false} RoundHalfUpBetween(x: real, lo: int, hi: int)
    requires lo as real <= x <= hi as real
    ensures lo <= RoundHalfUp(x) <= hi
  {
  }

  datatype Level = Low | Medium | High

  /** Level order: low < medium < high. */
  function LevelRank(l: Level): nat {
    match l
    case Low => 0
    case Medium => 1
    case High => 2
  }

  /** The badge level of a percentage: 80 and over is high, 60 up to 80
      medium, anything lower low. The simplified badge tests the same two
      thresholds in the same order, so this is its level as well. */
  function MasteryLevel(p: real): (r: Level)
    ensures r == High <==> p >= 80.0
    ensures r == Medium <==> 60.0 <= p < 80.0
    ensures r == Low <==> p < 60.0
  {
    if p >= 80.0 then High else if p >= 60.0 then Medium else Low
  }

  function LevelLabel(l: Level): string {
    match l
    case High => "ممتاز"
    case Medium => "جيد"
    case Low => "يحتاج تحسين"
  }

  /** A higher percentage never shows a lower level. */
  lemma {:induction false} MasteryMonotone(p: real, q: real)
    requires p <= q
    ensures LevelRank(MasteryLevel(p)) <= LevelRank(MasteryLevel(q))
  {
  }

  datatype Trend = Improved | Declined | Steady

  function TrendLabel(t: Trend): string {
    match t
    case Improved => "تحسن"
    case Declined => "انخفاض"
    case Steady => "ثابت"
  }

  /** No arrow unless trends are asked for and a previous percentage is
      known; then up, down or flat by comparison with it. */
  function GetTrend(showTrend: bool, previous: Option<real>, p: real): (r: Option<Trend>)
    ensures r.None? <==> !showTrend || previous.None?
    ensures r == Some(Improved) <==> showTrend && previous.Some? && p > previous.value
    ensures r == Some(Declined) <==> showTrend && previous.Some? && p < previous.value
    ensures r == Some(Steady) <==> showTrend && previous == Some(p)
  {
    if !showTrend || previous.None? then None
    else if p > previous.value then Some(Improved)
    else if p < previous.value then Some(Declined)
    else Some(Steady)
  }

  /** Swapping the two percentages swaps up and down and keeps flat. */
  lemma {:induction false} TrendSwapped(p: real, q: real)
    ensures GetTrend(true, Some(q), p) == Some(Improved) <==> GetTrend(true, Some(p), q) == Some(Declined)
    ensures GetTrend(true, Some(q), p) == Some(Steady) <==> GetTrend(true, Some(p), q) == Some(Steady)
  {
  }

  const ExcellentAdvice := "أداء ممتاز! استمر في التقدم"
  const GoodAdvice := "أداء جيد، يمكن التحسين"
  const ReviewAdvice := "يحتاج إلى مراجعة وتركيز أكثر"

  function LevelAdvice(l: Level): string {
    match l
    case High => ExcellentAdvice
    case Medium => GoodAdvice
    case Low => ReviewAdvice
  }

  /** The tooltip's advice line: three independent `cond && text` parts, of
      which exactly one renders, the one for the badge's level. */
  function TooltipAdvice(p: real): (r: seq<string>)
    ensures |r| == 1
    ensures r[0] == LevelAdvice(MasteryLevel(p))
  {
    (if p >= 80.0 then [ExcellentAdvice] else [])
    + (if p >= 60.0 && p < 80.0 then [GoodAdvice] else [])
    + (if p < 60.0 then [ReviewAdvice] else [])
  }
}
