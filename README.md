# Crypto signal evaluation — a Dafny model

This project models the signal logic of a crypto-market scanner
(`app.py`):

- The candlestick classifier compares the latest bar with the previous one.
  It flags a pin bar (long lower or upper wick) and an engulfing bar (bullish
  or bearish).
- The evaluation of an indicator frame works on its last bar:
  - It reads the EMA20/50/200 stack as a bull trend, a bear trend or no trade.
  - In a trend it runs six one-point confirmation checks: liquidity sweep,
    RSI turn, candle pattern, Bollinger-midline cross, volume surge and
    Fibonacci 0.618 touch. Each check that fires adds a point and a reason.
  - It sets a stop-loss and two take-profit levels from the ATR and the
    structural range.
- The "actionable" threshold: a signal with a score of three or more is
  shown as a live trade.

Modules:

- `Bars` (bars.dfy) holds the frame: a `seq<Row>` of bars whose indicator
  columns are given values. It also holds:
  - the nine-row look-back window;
  - its lowest low and highest high;
  - the reflection of a bar around a price, which the symmetry lemmas use.
- `Candles` (candles.dfy) is the candlestick classifier.
- `Trend` (trend.dfy) classifies the trend.
- `Scoring` (scoring.dfy) holds the six checks. Each direction's verdicts
  are a list in the fixed check order. `Select` builds the ordered reason
  list from those verdicts. Reasons are `(polarity, check)` pairs, and
  `Text` maps each pair to the string the program shows.
- `Risk` (risk.dfy) computes the stop-loss and take-profit levels.
- `Analysis` (analysis.dfy) holds the evaluation itself:
  - two methods with local `score`/`reasons` accumulators, one for each
    direction's block of checks;
  - `Analyze`, which returns the signal record;
  - the `Actionable` predicate.

Prices are exact `real`s.

A Python division by a zero price follows numpy's rule, because the close
is a numpy float. It yields inf or nan rather than raising, and neither
compares below the tolerance. So the Fibonacci check simply does not fire
at a zero price (`Scoring.NearLevel`).

In the model, a frame with fewer than two rows gives no result:
- an empty frame returns `None` directly (`app.py:57`);
- a one-row frame fails at `iloc[-2]`, and the caller's exception handler
  turns that into no result.

In the running program, shorter frames fail in more ways than this. For
example, a frame shorter than the ATR length gets an ATR column of `None`
values, because the indicator library returns `None` for a series shorter
than its length. `2*atr` (`app.py:114`) then raises, and the handler again
gives no result. Every `Row` field in the model is a real, so the model
cannot express a `None` indicator value. For such frames it returns a
result.

With two to nine rows, Python's slice clamping gives a shorter look-back
window, and the model follows it.

## Model

| member | source | states |
|---|---|---|
| Bars.RecentWindow | app.py:83 | the window is the up-to-nine rows just before the last one, element by element: nine when the frame has ten rows or more, all earlier rows otherwise |
| Bars.MinLow | app.py:83 | the result is the low of some row in the window and no row's low is below it |
| Bars.MaxHigh | app.py:98 | the result is the high of some row in the window and no row's high is above it |
| Bars.MinLowMirror | app.py:83 | the lowest low of a reflected run is the reflection of the run's highest high |
| Bars.MaxHighMirror | app.py:98 | the highest high of a reflected run is the reflection of the run's lowest low |
| Bars.RecentWindowMirror | app.py:83 | the window of a reflected frame is the reflection of the frame's window |
| Candles.CheckCandlePattern | app.py:42-54 | a zero-range bar has no flag set; pin bull holds exactly when open and close both sit above the bar's lowest 60%; pin bear holds exactly when both sit below its highest 60%; on a bar with low <= high the two pins never hold together; each engulfing flag holds exactly when the bar reverses the previous bar's colour and its body spans the previous range; the two engulfing flags never hold together |
| Candles.PatternMirror | app.py:42-54 | on reflected bars every bullish flag becomes the matching bearish one and back |
| Trend.Direction | app.py:62-72 | direction 1 exactly for the bull regime, -1 exactly for the bear regime and 0 exactly for no trade |
| Trend.ClassifyTrend | app.py:62-72 | Bull exactly when the EMA200 is present and EMA20 > EMA50 > EMA200; Bear exactly when it is present and EMA20 < EMA50 < EMA200; direction 0 exactly when the label is the no-trade label |
| Trend.Label | app.py:62-71 | the no-trade label is shown exactly for the no-trade regime |
| Trend.LabelsDistinct | app.py:62-71 | two regimes show the same label exactly when they are the same regime |
| Trend.TrendMirror | app.py:62-72 | reflecting the bar negates the direction |
| Scoring.Fib0618 | app.py:79-80 | the level measured 61.8% down from the structural high is the level 38.2% of the range above the structural low, and it lies within a non-negative range |
| Scoring.NearLevelMeaning | app.py:94 | for a positive price the Fibonacci test passes exactly when the level lies strictly within 0.5% of the price on either side; at a zero price it never passes; at a negative price it always passes, because the quotient is then never positive |
| Scoring.BullVerdicts | app.py:83-94 | six verdicts, one per check in order; a bull sweep closes above the bar's own low; the RSI turn means the RSI rose; no candle point on a bar without range; the Bollinger cross means the close rose; a volume surge over a non-negative average means volume above that average; the Fibonacci point needs a non-zero price |
| Scoring.BearVerdicts | app.py:98-109 | six verdicts, one per check in order; a bear sweep closes below the bar's own high; the RSI turn means the RSI fell; no candle point on a bar without range; the Bollinger cross means the close fell; a volume surge over a non-negative average means volume above that average; the Fibonacci point needs a non-zero price |
| Scoring.Verdicts | app.py:82-109 | six verdicts in check order; none fires when the direction is neither 1 nor -1 |
| Scoring.Text | app.py:82-110 | every reason has a non-empty text, and the volume text is the same in both directions |
| Scoring.TextIdentifies | app.py:82-110 | two reasons show the same text exactly when they name the same check and lean the same way, or both name the volume check |
| Scoring.SelectMembers | app.py:82-110 | a reason is selected exactly when it carries the direction's tag and its check is among the first k with a true verdict |
| Scoring.SelectOrdered | app.py:82-110 | selected reasons follow the evaluation order strictly, so no check appears twice |
| Scoring.SelectNone | app.py:75-76 | with every verdict false no reason is selected |
| Scoring.SelectRetag | app.py:82-110 | verdicts that agree select the same checks in the same order whatever the tag |
| Scoring.ReasonsFacts | app.py:74-110 | at most six reasons; a reason is present exactly when it carries the direction and its check fires; every reason carries the direction; reasons follow the check order; there are none when the direction is neither 1 nor -1 |
| Scoring.SweepBullMeaning | app.py:83-85 | the bull sweep point is awarded exactly when the last bar's low is below every low of the window and its close is above at least one of them |
| Scoring.SweepBearMeaning | app.py:98-100 | the bear sweep point is awarded exactly when the last bar's high is above every high of the window and its close is below at least one of them |
| Scoring.BullVerdictsMirror | app.py:82-93 | on reflected bars each bull verdict other than the Fibonacci one equals the bear verdict on the original bars |
| Scoring.BearVerdictsMirror | app.py:97-108 | on reflected bars each bear verdict other than the Fibonacci one equals the bull verdict on the original bars |
| Scoring.VerdictsMirror | app.py:82-108 | reflecting the frame and flipping the direction leaves the first five verdicts unchanged |
| Scoring.FiresMirror | app.py:82-108 | the same for a single check other than the Fibonacci one |
| Scoring.ReasonsMirror | app.py:82-110 | when the Fibonacci verdict agrees, the reflected frame in the flipped direction earns the same checks in the same order, with the flipped tag |
| Scoring.NearLevelNotMirrored | app.py:94 | the proximity test passes for price 100 and level 100.45 and fails for the same pair reflected around 90, so the relative tolerance alone breaks the reflection |
| Scoring.FibNotMirrored | app.py:79-80 | for a concrete two-bar frame the bull Fibonacci check fires while the reflected frame's bear Fibonacci check does not |
| Risk.RiskLevels | app.py:112-116 | long: the stop is 2 ATR under the bar's low, the first target is the structural high, the second target lies 161.8% of the range above the range's low; any other direction: the mirror image from the bar's high and the range's top; with a non-negative ATR the stop lies beyond the bar; with a non-negative range the second target lies beyond the first |
| Risk.RiskMirror | app.py:112-116 | reflecting the bar and flipping between long and short reflects all three levels |
| Risk.RiskExample | app.py:112-116 | low 100, ATR 2 and range 90..150 give stop 96 and targets 150 and 187.08 |
| Analysis.ScoreBull | app.py:82-95 | the bull block's reasons are exactly the selected bull reasons of the frame, in check order, and the score is their count |
| Analysis.ScoreBear | app.py:97-110 | the bear block's reasons are exactly the selected bear reasons of the frame, in check order, and the score is their count |
| Analysis.Analyze | app.py:56-122 | no result exactly for a frame of fewer than two rows; otherwise the record's price and RSI are the last bar's, the trend is its classification, the direction is the trend's, the reasons are the frame's reasons in that direction, the score is their count and the levels are the risk levels for the direction |
| Analysis.EvaluationConsistent | app.py:74-110 | every evaluation is consistent: the direction is the trend's; the score counts the reasons and is between 0 and 6; every reason carries the direction; reasons follow the check order; no trend means score 0 and no reasons; and a check's reason is present exactly when the check fires |
| Analysis.Actionable | app.py:182 | a consistent signal is actionable exactly when it has a trend and at least three reasons |
| Analysis.ActionableIsDirectional | app.py:216-222 | a consistent signal with score at least 3 has direction 1 or -1, so the long/short choice never falls through, and it carries at least three reasons |

## Left out

- Indicator computation (`app.py:132-146`) is not modelled. EMA, RSI,
  Bollinger, ATR and the rolling structural range and volume average come
  from a foreign charting library and pandas rolling windows. Their columns
  are given fields of `Row`.
- Market-data fetching over the network (`app.py:127-129`) is not modelled.
  Of the catch-all exception handler (`app.py:150-151`), only its effect on
  a one-row frame is kept: no result. Other exceptions it catches are not
  modelled. One example is `2*atr` (`app.py:114`) on an ATR column of
  `None` values, which the indicator library produces when the frame is
  shorter than the ATR length; `Analysis.Analyze` returns a result for such frames.
- The threaded fan-out and time-limited cache of `fetch_all_market_data`
  (`app.py:154-165`) are concurrency and caching; they are not modelled.
- `format_price` (`app.py:36-40`) is float string formatting; it is not
  modelled.
- The web UI and HTML rendering (`app.py:170-316`) are not modelled. The
  exception is the `score >= 3` test (`app.py:182`, `app.py:216`), modelled
  as `Analysis.Actionable`.
- Floating-point rounding is not modelled: prices are exact reals.
- NaN is modelled only in the EMA200 column, the only one the logic tests
  for a missing value. A NaN elsewhere would make comparisons false, and
  pandas `min`/`max` skip NaN; neither effect is captured.
- Each reason is a `(polarity, check)` pair rather than a `(polarity, text)`
  pair; `Scoring.Text` gives the displayed string for it.
- Analysis.Analyze: the two scoring blocks are separate methods,
  `Analysis.ScoreBull` and `Analysis.ScoreBear`, which `Analyze` calls where
  the source has them inline. Each block computes the candle pattern and the
  Fibonacci level itself; the source computes them once, before it branches
  on the direction. `Analyze` computes the range for the risk levels after
  the scoring rather than before it. None of these values has a side effect,
  so the result is the same.
- Risk.RiskLevels: when there is no trend, the code computes the levels
  through the short branch; the model does the same rather than leaving
  them undefined.
- Scoring.ReasonsMirror: the symmetry between the bull and bear checks is
  proved only for five of the six checks. The Fibonacci check does not
  mirror, for two reasons:
  - both directions use the same level, measured down from the structural
    high;
  - the 0.5% tolerance is relative to the price, which reflection changes.

  `Scoring.NearLevelNotMirrored` shows the second cause on its own, and
  `Scoring.FibNotMirrored` exhibits a frame where the check differs.
