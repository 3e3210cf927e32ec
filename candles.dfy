/** Candlestick classification of the latest bar against the one before it. */
module Candles {
  import opened Bars

  /** The four independent flags: long lower wick, long upper wick, bullish
      and bearish engulfing. */
  datatype Pattern = Pattern(pinBull: bool, pinBear: bool, engulfBull: bool, engulfBear: bool)

  /** A wick longer than this share of the bar's range makes a pin bar. */
  const PinRatio: real := 0.6

  /** Classifies `row` (the latest bar) with `prev` (the bar before it).
      A pin bar is a bar whose whole body sits in the far 40% of its range;
      an engulfing bar reverses the previous bar's colour and its body spans
      the previous bar's whole range. */
  function CheckCandlePattern(row: Row, prev: Row): (p: Pattern)
    // a zero-range bar cannot be classified
    ensures row.high == row.low ==> !p.pinBull && !p.pinBear && !p.engulfBull && !p.engulfBear
    // pin bull: open and close both in the top 40% of the range
    ensures p.pinBull <==>
      row.high != row.low &&
      row.open > row.low + PinRatio * (row.high - row.low) &&
      row.close > row.low + PinRatio * (row.high - row.low)
    // pin bear: open and close both in the bottom 40% of the range
    ensures p.pinBear <==>
      row.high != row.low &&
      row.open < row.high - PinRatio * (row.high - row.low) &&
      row.close < row.high - PinRatio * (row.high - row.low)
    // on a bar whose high is not below its low the two wicks cannot both be long
    ensures row.low <= row.high ==> !(p.pinBull && p.pinBear)
    // engulfing: the bar reverses the previous bar's colour and its body
    // covers the previous bar's whole range
    ensures p.engulfBull <==>
      row.high != row.low && row.close > row.open && prev.close < prev.open &&
      row.open < prev.low && prev.high < row.close
    ensures p.engulfBear <==>
      row.high != row.low && row.close < row.open && prev.close > prev.open &&
      row.close < prev.low && prev.high < row.open
    ensures !(p.engulfBull && p.engulfBear)
  {
    var totalLen := row.high - row.low;
    if totalLen == 0.0 then Pattern(false, false, false, false)
    else
      var upperWick := row.high - Max(row.close, row.open);
      var lowerWick := Min(row.close, row.open) - row.low;
      Pattern(
        pinBull := lowerWick > totalLen * PinRatio,
        pinBear := upperWick > totalLen * PinRatio,
        engulfBull := row.close > row.open && prev.close < prev.open &&
                      row.close > prev.high && row.open < prev.low,
        engulfBear := row.close < row.open && prev.close > prev.open &&
                      row.close < prev.low && row.open > prev.high)
  }

  /** Reflecting both bars around a price turns every bullish flag into the
      matching bearish one and back. */
  lemma PatternMirror(row: Row, prev: Row, pivot: real)
    ensures var p := CheckCandlePattern(row, prev);
            var q := CheckCandlePattern(Mirror(row, pivot), Mirror(prev, pivot));
            q == Pattern(p.pinBear, p.pinBull, p.engulfBear, p.engulfBull)
  {
  }
}
