/** Reduction of the EMA20/50/200 stack of the latest bar to a regime. */
module Trend {
  import opened Bars

  datatype Regime = Bull | Bear | NoTrade

  /** The signed direction the rest of the evaluation branches on. */
  function Direction(t: Regime): (d: int)
    ensures d == 1 <==> t == Bull
    ensures d == -1 <==> t == Bear
    ensures d == 0 <==> t == NoTrade
  {
    match t
    case Bull => 1
    case Bear => -1
    case NoTrade => 0
  }

  /** The label shown for each regime. */
  function Label(t: Regime): (l: string)
    ensures l == "盤整 (No Trade)" <==> t == NoTrade
  {
    match t
    case Bull => "🔥 多頭趨勢"
    case Bear => "❄️ 空頭趨勢"
    case NoTrade => "盤整 (No Trade)"
  }

  /** Distinct regimes carry distinct labels. */
  lemma LabelsDistinct(a: Regime, b: Regime)
    ensures Label(a) == Label(b) <==> a == b
  {
  }

  /** Bull needs the three averages strictly stacked upwards, Bear strictly
      downwards; anything else, including a missing long EMA, is no trade. */
  function ClassifyTrend(curr: Row): (t: Regime)
    ensures t == Bull <==> curr.ema200.Some? && curr.ema20 > curr.ema50 > curr.ema200.value
    ensures t == Bear <==> curr.ema200.Some? && curr.ema20 < curr.ema50 < curr.ema200.value
    ensures Direction(t) == 0 <==> Label(t) == "盤整 (No Trade)"
  {
    if curr.ema200.Some? then
      if curr.ema20 > curr.ema50 > curr.ema200.value then Bull
      else if curr.ema20 < curr.ema50 < curr.ema200.value then Bear
      else NoTrade
    else NoTrade
  }

  /** Reflecting the bar around a price flips the direction. */
  lemma TrendMirror(curr: Row, pivot: real)
    ensures Direction(ClassifyTrend(Mirror(curr, pivot))) == -Direction(ClassifyTrend(curr))
  {
  }
}
