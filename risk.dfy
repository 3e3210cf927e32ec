/** Stop-loss and take-profit levels from the ATR and the structural range. */
module Risk {
  import opened Bars

  datatype Levels = Levels(stopLoss: real, takeProfit1: real, takeProfit2: real)

  /** The stop sits this many ATRs beyond the latest bar's extreme. */
  const AtrMultiple: real := 2.0
  /** The second target extends the structural range by this share of it. */
  const Extension: real := 0.618

  /** Levels for a long when `direction` is 1; every other direction,
      including no trend, gets the short levels. */
  function RiskLevels(direction: int, curr: Row): (l: Levels)
    // long: stop 2 ATR under the bar's low, first target the structural high,
    // second target the 161.8% extension of the range above its low
    ensures direction == 1 ==>
      curr.low - l.stopLoss == AtrMultiple * curr.atr &&
      l.takeProfit1 == curr.structHigh &&
      l.takeProfit2 - curr.structLow == (1.0 + Extension) * (curr.structHigh - curr.structLow)
    // short: the mirror image, measured from the bar's high and the range's top
    ensures direction != 1 ==>
      l.stopLoss - curr.high == AtrMultiple * curr.atr &&
      l.takeProfit1 == curr.structLow &&
      curr.structHigh - l.takeProfit2 == (1.0 + Extension) * (curr.structHigh - curr.structLow)
    // with a non-negative ATR and range: stop beyond the bar, second target beyond the first
    ensures direction == 1 && curr.atr >= 0.0 ==> l.stopLoss <= curr.low
    ensures direction == 1 && curr.structHigh >= curr.structLow ==> l.takeProfit2 >= l.takeProfit1
    ensures direction != 1 && curr.atr >= 0.0 ==> l.stopLoss >= curr.high
    ensures direction != 1 && curr.structHigh >= curr.structLow ==> l.takeProfit2 <= l.takeProfit1
  {
    var diff := curr.structHigh - curr.structLow;
    if direction == 1 then
      Levels(curr.low - AtrMultiple * curr.atr, curr.structHigh, curr.structHigh + diff * Extension)
    else
      Levels(curr.high + AtrMultiple * curr.atr, curr.structLow, curr.structLow - diff * Extension)
  }

  /** Reflecting the bar around a price and flipping between long and short
      reflects all three levels. */
  lemma RiskMirror(curr: Row, pivot: real, direction: int)
    requires direction == 1 || direction == -1
    ensures var l := RiskLevels(direction, curr);
            var m := RiskLevels(-direction, Mirror(curr, pivot));
            m == Levels(2.0 * pivot - l.stopLoss, 2.0 * pivot - l.takeProfit1, 2.0 * pivot - l.takeProfit2)
  {
  }

  /** A worked long: low 100, ATR 2, range 90..150 gives stop 96 and targets
      150 and 187.08. */
  lemma RiskExample()
    ensures RiskLevels(1, Row(120.0, 125.0, 100.0, 110.0, 1.0, 0.0, 0.0, None, 50.0,
                              0.0, 2.0, 150.0, 90.0, 1.0)) == Levels(96.0, 150.0, 187.08)
  {
  }
}
