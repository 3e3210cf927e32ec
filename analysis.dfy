/** One evaluation of the latest bar of an indicator frame: trend, score,
    reasons and risk levels, and the threshold that makes a signal
    actionable. */
module Analysis {
  import opened Bars
  import opened Candles
  import opened Trend
  import opened Scoring
  import opened Risk

  /** The record one evaluation returns. */
  datatype Signal = Signal(
    price: real, trend: Regime, direction: int, score: int, reasons: seq<Reason>,
    sl: real, tp1: real, tp2: real, rsi: real)

  /** What every evaluated signal satisfies: the direction is the trend's,
      the score counts the reasons (at most six), every reason supports the
      direction, reasons follow the fixed check order, and there are none
      without a trend. */
  ghost predicate Consistent(s: Signal)
  {
    s.direction == Direction(s.trend) &&
    s.score == |s.reasons| && 0 <= s.score <= |AllChecks| &&
    (forall i :: 0 <= i < |s.reasons| ==> s.reasons[i].polarity == s.direction) &&
    (forall i, j :: 0 <= i < j < |s.reasons| ==>
       Index(s.reasons[i].check) < Index(s.reasons[j].check)) &&
    (s.direction == 0 ==> s.score == 0 && s.reasons == [])
  }

  /** The bull block: each of the six checks that holds adds a point and a
      reason tagged 1, in the fixed check order. */
  method ScoreBull(df: seq<Row>) returns (score: int, reasons: seq<Reason>)
    requires |df| >= 2
    ensures reasons == Reasons(df, 1)
    ensures score == |reasons|
  {
    var curr, prev := df[|df| - 1], df[|df| - 2];
    var price := curr.close;
    var pattern := CheckCandlePattern(curr, prev);
    var fib0618 := Fib0618(curr);
    ghost var v := BullVerdicts(curr, prev, RecentWindow(df));

    score, reasons := 0, [];
    var recentLow := MinLow(RecentWindow(df));
    if curr.low < recentLow && curr.close > recentLow {
      score := score + 1; reasons := reasons + [Reason(1, Sweep)];
    }
    assert reasons == Select(v, 1, 1) && score == |reasons|;
    if prev.rsi < RsiBullLevel && curr.rsi > RsiBullLevel {
      score := score + 1; reasons := reasons + [Reason(1, RsiTurn)];
    }
    assert reasons == Select(v, 1, 2) && score == |reasons|;
    if pattern.pinBull || pattern.engulfBull {
      score := score + 1; reasons := reasons + [Reason(1, Candle)];
    }
    assert reasons == Select(v, 1, 3) && score == |reasons|;
    if curr.close > curr.bbMid && prev.close < curr.bbMid {
      score := score + 1; reasons := reasons + [Reason(1, BollingerCross)];
    }
    assert reasons == Select(v, 1, 4) && score == |reasons|;
    if curr.volume > curr.volMa * VolumeFactor {
      score := score + 1; reasons := reasons + [Reason(1, VolumeSurge)];
    }
    assert reasons == Select(v, 1, 5) && score == |reasons|;
    if NearLevel(price, fib0618) {
      score := score + 1; reasons := reasons + [Reason(1, FibTouch)];
    }
    assert reasons == Select(v, 1, 6) && score == |reasons|;
  }

  /** The bear block: the mirrored checks, each adding a point and a reason
      tagged -1. */
  method ScoreBear(df: seq<Row>) returns (score: int, reasons: seq<Reason>)
    requires |df| >= 2
    ensures reasons == Reasons(df, -1)
    ensures score == |reasons|
  {
    var curr, prev := df[|df| - 1], df[|df| - 2];
    var price := curr.close;
    var pattern := CheckCandlePattern(curr, prev);
    var fib0618 := Fib0618(curr);
    ghost var v := BearVerdicts(curr, prev, RecentWindow(df));

    score, reasons := 0, [];
    var recentHigh := MaxHigh(RecentWindow(df));
    if curr.high > recentHigh && curr.close < recentHigh {
      score := score + 1; reasons := reasons + [Reason(-1, Sweep)];
    }
    assert reasons == Select(v, -1, 1) && score == |reasons|;
    if prev.rsi > RsiBearLevel && curr.rsi < RsiBearLevel {
      score := score + 1; reasons := reasons + [Reason(-1, RsiTurn)];
    }
    assert reasons == Select(v, -1, 2) && score == |reasons|;
    if pattern.pinBear || pattern.engulfBear {
      score := score + 1; reasons := reasons + [Reason(-1, Candle)];
    }
    assert reasons == Select(v, -1, 3) && score == |reasons|;
    if curr.close < curr.bbMid && prev.close > curr.bbMid {
      score := score + 1; reasons := reasons + [Reason(-1, BollingerCross)];
    }
    assert reasons == Select(v, -1, 4) && score == |reasons|;
    if curr.volume > curr.volMa * VolumeFactor {
      score := score + 1; reasons := reasons + [Reason(-1, VolumeSurge)];
    }
    assert reasons == Select(v, -1, 5) && score == |reasons|;
    if NearLevel(price, fib0618) {
      score := score + 1; reasons := reasons + [Reason(-1, FibTouch)];
    }
    assert reasons == Select(v, -1, 6) && score == |reasons|;
  }

  /** The fields of `s` are those of an evaluation of frame `df`. */
  ghost predicate EvaluationOf(df: seq<Row>, s: Signal)
    requires |df| >= 2
  {
    var curr := df[|df| - 1];
    s.price == curr.close && s.rsi == curr.rsi &&
    s.trend == ClassifyTrend(curr) && s.direction == Direction(s.trend) &&
    s.reasons == Reasons(df, s.direction) && s.score == |s.reasons| &&
    Levels(s.sl, s.tp1, s.tp2) == RiskLevels(s.direction, curr)
  }

  /** Evaluates the last bar of `df` against the one before it. An empty
      frame gives no result; a one-row frame has no previous bar, which the
      source reports as an indexing exception that its caller turns into no
      result as well. */
  method Analyze(df: seq<Row>) returns (r: Option<Signal>)
    ensures r.None? <==> |df| < 2
    ensures r.Some? ==> EvaluationOf(df, r.value)
  {
    if |df| < 2 {
      return None;
    }
    var curr := df[|df| - 1];
    var prev := df[|df| - 2];
    var price := curr.close;

    var trend := ClassifyTrend(curr);
    var direction := Direction(trend);

    var score := 0;
    var reasons: seq<Reason> := [];
    if direction == 1 {
      score, reasons := ScoreBull(df);
    } else if direction == -1 {
      score, reasons := ScoreBear(df);
    } else {
      ReasonsFacts(df, direction);
    }

    var atr := curr.atr;
    var diff := curr.structHigh - curr.structLow;
    var sl := if direction == 1 then curr.low - AtrMultiple * atr else curr.high + AtrMultiple * atr;
    var tp1 := if direction == 1 then curr.structHigh else curr.structLow;
    var tp2 := if direction == 1 then curr.structHigh + diff * Extension
               else curr.structLow - diff * Extension;

    r := Some(Signal(price, trend, direction, score, reasons, sl, tp1, tp2, curr.rsi));
  }

  /** Every evaluation is consistent: see `Consistent`; and a check's reason
      is present exactly when the check fires. */
  lemma EvaluationConsistent(df: seq<Row>, s: Signal)
    requires |df| >= 2 && EvaluationOf(df, s)
    ensures Consistent(s)
    ensures forall c :: Reason(s.direction, c) in s.reasons <==> Fires(c, df, s.direction)
  {
    ReasonsFacts(df, s.direction);
  }

  /** The score a signal needs before it is acted on. */
  const ActionableScore: int := 3

  /** A consistent signal is actionable exactly when it has a trend and at
      least three reasons. */
  predicate Actionable(s: Signal)
    ensures Consistent(s) ==>
      (Actionable(s) <==> s.direction != 0 && |s.reasons| >= ActionableScore)
  {
    s.score >= ActionableScore
  }

  /** An actionable signal always has a trend, so the long/short choice made
      for it never falls through, and it carries at least three reasons. */
  lemma ActionableIsDirectional(s: Signal)
    requires Consistent(s) && Actionable(s)
    ensures s.direction == 1 || s.direction == -1
    ensures |s.reasons| >= ActionableScore
  {
  }
}
