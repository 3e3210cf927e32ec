/** The indicator frame the signal logic reads: one row per bar, with the
    bar's prices and volume and the indicator columns computed before the
    evaluation. Indicator computation itself is outside this model; the
    columns arrive here as given values. */
module Bars {

  datatype Option<T> = None | Some(value: T)

  /** One row of the frame. Only the long EMA is ever checked for a missing
      value by the signal logic, so it is the only optional column. */
  datatype Row = Row(
    open: real, high: real, low: real, close: real, volume: real,
    ema20: real, ema50: real, ema200: Option<real>,
    rsi: real, bbMid: real, atr: real,
    structHigh: real, structLow: real, volMa: real)

  function Abs(x: real): real { if x < 0.0 then -x else x }

  function Max(a: real, b: real): real { if a < b then b else a }

  function Min(a: real, b: real): real { if a < b then a else b }

  /** The rows `iloc[-10:-1]` selects: the (up to) nine rows just before the
      last one. Python slicing clamps a start before the beginning to 0, so a
      frame shorter than ten rows gives a shorter, still non-empty, window. */
  function RecentWindow(df: seq<Row>): (w: seq<Row>)
    requires |df| >= 2
    ensures |w| == if |df| >= 10 then 9 else |df| - 1
    ensures forall i :: 0 <= i < |w| ==> w[i] == df[|df| - 1 - |w| + i]
  {
    df[if |df| >= 10 then |df| - 10 else 0 .. |df| - 1]
  }

  /** The smallest `low` of a non-empty run of rows (pandas `min`). */
  function MinLow(rows: seq<Row>): (m: real)
    requires |rows| > 0
    ensures exists i :: 0 <= i < |rows| && rows[i].low == m
    ensures forall i :: 0 <= i < |rows| ==> m <= rows[i].low
  {
    if |rows| == 1 then rows[0].low
    else
      var rest := MinLow(rows[1..]);
      assert forall i :: 1 <= i < |rows| ==> rows[1..][i - 1] == rows[i];
      Min(rows[0].low, rest)
  }

  /** The largest `high` of a non-empty run of rows (pandas `max`). */
  function MaxHigh(rows: seq<Row>): (m: real)
    requires |rows| > 0
    ensures exists i :: 0 <= i < |rows| && rows[i].high == m
    ensures forall i :: 0 <= i < |rows| ==> rows[i].high <= m
  {
    if |rows| == 1 then rows[0].high
    else
      var rest := MaxHigh(rows[1..]);
      assert forall i :: 1 <= i < |rows| ==> rows[1..][i - 1] == rows[i];
      Max(rows[0].high, rest)
  }

  /** A row reflected around the price `pivot`: every price becomes
      `2*pivot - x` (so high and low trade places, as do the structural high
      and low), the RSI is reflected around 50, and volume, its average and
      the ATR, which measure size rather than level, are kept. */
  function Mirror(r: Row, pivot: real): Row
  {
    Row(
      open := 2.0 * pivot - r.open, high := 2.0 * pivot - r.low,
      low := 2.0 * pivot - r.high, close := 2.0 * pivot - r.close,
      volume := r.volume,
      ema20 := 2.0 * pivot - r.ema20, ema50 := 2.0 * pivot - r.ema50,
      ema200 := if r.ema200.Some? then Some(2.0 * pivot - r.ema200.value) else None,
      rsi := 100.0 - r.rsi, bbMid := 2.0 * pivot - r.bbMid, atr := r.atr,
      structHigh := 2.0 * pivot - r.structLow, structLow := 2.0 * pivot - r.structHigh,
      volMa := r.volMa)
  }

  function MirrorFrame(df: seq<Row>, pivot: real): (m: seq<Row>)
    ensures |m| == |df|
    ensures forall i :: 0 <= i < |df| ==> m[i] == Mirror(df[i], pivot)
  {
    seq(|df|, i requires 0 <= i < |df| => Mirror(df[i], pivot))
  }

  /** The lowest low of a reflected run is the reflection of its highest
      high. */
  lemma {:induction false} MinLowMirror(rows: seq<Row>, pivot: real)
    requires |rows| > 0
    ensures MinLow(MirrorFrame(rows, pivot)) == 2.0 * pivot - MaxHigh(rows)
  {
    var m := MirrorFrame(rows, pivot);
    if |rows| > 1 {
      assert m[1..] == MirrorFrame(rows[1..], pivot);
      MinLowMirror(rows[1..], pivot);
    }
  }

  /** The highest high of a reflected run is the reflection of its lowest
      low. */
  lemma {:induction false} MaxHighMirror(rows: seq<Row>, pivot: real)
    requires |rows| > 0
    ensures MaxHigh(MirrorFrame(rows, pivot)) == 2.0 * pivot - MinLow(rows)
  {
    var m := MirrorFrame(rows, pivot);
    if |rows| > 1 {
      assert m[1..] == MirrorFrame(rows[1..], pivot);
      MaxHighMirror(rows[1..], pivot);
    }
  }

  /** Reflecting a frame and then taking its recent window is the same as
      reflecting the window. */
  lemma RecentWindowMirror(df: seq<Row>, pivot: real)
    requires |df| >= 2
    ensures RecentWindow(MirrorFrame(df, pivot)) == MirrorFrame(RecentWindow(df), pivot)
  {
  }
}
