/** The six one-point confirmation checks and the ordered list of those that
    fire for a given direction. */
module Scoring {
  import opened Bars
  import opened Candles

  /** The checks, one constructor each, in their fixed evaluation order. */
  datatype Check = Sweep | RsiTurn | Candle | BollingerCross | VolumeSurge | FibTouch

  const AllChecks: seq<Check> := [Sweep, RsiTurn, Candle, BollingerCross, VolumeSurge, FibTouch]

  const RsiBullLevel: real := 40.0
  const RsiBearLevel: real := 60.0
  const VolumeFactor: real := 1.2
  const FibLevel: real := 0.618
  const FibTolerance: real := 0.005

  /** Position of a check in the evaluation order. */
  function Index(c: Check): (n: nat)
    ensures n < |AllChecks| && AllChecks[n] == c
  {
    match c
    case Sweep => 0
    case RsiTurn => 1
    case Candle => 2
    case BollingerCross => 3
    case VolumeSurge => 4
    case FibTouch => 5
  }

  /** The 0.618 retracement level of the structural range, measured down
      from the structural high (the same level serves both directions). */
  function Fib0618(curr: Row): (r: real)
    // the same level lies 38.2% of the range above the structural low
    ensures r == curr.structLow + (1.0 - FibLevel) * (curr.structHigh - curr.structLow)
    ensures curr.structLow <= curr.structHigh ==> curr.structLow <= r <= curr.structHigh
  {
    curr.structHigh - (curr.structHigh - curr.structLow) * FibLevel
  }

  /** Price within 0.5% of `level`, relative to the price. The division is a
      numpy scalar division: a zero price gives inf or nan rather than an
      exception, and neither compares below the tolerance. */
  predicate NearLevel(price: real, level: real)
  {
    price != 0.0 && Abs(price - level) / price < FibTolerance
  }

  /** Dividing by a positive number preserves a strict bound. */
  lemma DivBelow(x: real, p: real, t: real)
    requires p > 0.0
    ensures x / p < t <==> x < t * p
  {
    var q := x / p;
    assert q * p == x;
    if q < t {
      assert q * p < t * p;
    } else {
      assert q * p >= t * p;
    }
  }

  /** A non-negative number divided by a negative one is not positive. */
  lemma DivNegative(x: real, p: real)
    requires x >= 0.0 && p < 0.0
    ensures x / p <= 0.0
  {
    var q := x / p;
    assert q * p == x;
  }

  /** For a positive price the test is a band of half a percent of the
      price on either side of the level; a zero price never passes; a
      negative price always passes, since the quotient is then never
      positive. */
  lemma NearLevelMeaning(price: real, level: real)
    ensures price > 0.0 ==>
      (NearLevel(price, level) <==>
        price - FibTolerance * price < level < price + FibTolerance * price)
    ensures price == 0.0 ==> !NearLevel(price, level)
    ensures price < 0.0 ==> NearLevel(price, level)
  {
    if price > 0.0 {
      DivBelow(Abs(price - level), price, FibTolerance);
    } else if price < 0.0 {
      DivNegative(Abs(price - level), price);
    }
  }

  /** Price within 0.5% of the 0.618 level. */
  predicate NearFib(curr: Row)
  {
    NearLevel(curr.close, Fib0618(curr))
  }

  /** The bull-regime verdicts in evaluation order; `window` is the run of
      rows before the latest one. */
  function BullVerdicts(curr: Row, prev: Row, window: seq<Row>): (v: seq<bool>)
    requires |window| > 0
    ensures |v| == |AllChecks|
    // a sweep closes above the bar's own low
    ensures v[Index(Sweep)] ==> curr.low < curr.close
    ensures v[Index(RsiTurn)] ==> prev.rsi < curr.rsi
    // no candle signal on a bar without range
    ensures v[Index(Candle)] ==> curr.high != curr.low
    ensures v[Index(BollingerCross)] ==> prev.close < curr.close
    ensures v[Index(VolumeSurge)] && curr.volMa >= 0.0 ==> curr.volume > curr.volMa
    ensures v[Index(FibTouch)] ==> curr.close != 0.0
  {
    var recentLow := MinLow(window);
    var p := CheckCandlePattern(curr, prev);
    [ curr.low < recentLow && curr.close > recentLow,
      prev.rsi < RsiBullLevel && curr.rsi > RsiBullLevel,
      p.pinBull || p.engulfBull,
      // the midline is the latest bar's, for both bars
      curr.close > curr.bbMid && prev.close < curr.bbMid,
      curr.volume > curr.volMa * VolumeFactor,
      NearFib(curr) ]
  }

  /** The bear-regime verdicts in evaluation order. */
  function BearVerdicts(curr: Row, prev: Row, window: seq<Row>): (v: seq<bool>)
    requires |window| > 0
    ensures |v| == |AllChecks|
    // a sweep closes below the bar's own high
    ensures v[Index(Sweep)] ==> curr.close < curr.high
    ensures v[Index(RsiTurn)] ==> curr.rsi < prev.rsi
    ensures v[Index(Candle)] ==> curr.high != curr.low
    ensures v[Index(BollingerCross)] ==> curr.close < prev.close
    ensures v[Index(VolumeSurge)] && curr.volMa >= 0.0 ==> curr.volume > curr.volMa
    ensures v[Index(FibTouch)] ==> curr.close != 0.0
  {
    var recentHigh := MaxHigh(window);
    var p := CheckCandlePattern(curr, prev);
    [ curr.high > recentHigh && curr.close < recentHigh,
      prev.rsi > RsiBearLevel && curr.rsi < RsiBearLevel,
      p.pinBear || p.engulfBear,
      curr.close < curr.bbMid && prev.close > curr.bbMid,
      curr.volume > curr.volMa * VolumeFactor,
      NearFib(curr) ]
  }

  /** The verdict of each check on frame `df` in direction `dir`, indexed by
      evaluation order; no check runs when there is no trend. */
  function Verdicts(df: seq<Row>, dir: int): (v: seq<bool>)
    requires |df| >= 2
    ensures |v| == |AllChecks|
    ensures dir != 1 && dir != -1 ==> forall i :: 0 <= i < |v| ==> !v[i]
  {
    var curr, prev := df[|df| - 1], df[|df| - 2];
    if dir == 1 then BullVerdicts(curr, prev, RecentWindow(df))
    else if dir == -1 then BearVerdicts(curr, prev, RecentWindow(df))
    else [false, false, false, false, false, false]
  }

  /** Whether check `c` awards its point on frame `df` in direction `dir`. */
  predicate Fires(c: Check, df: seq<Row>, dir: int)
    requires |df| >= 2
  {
    Verdicts(df, dir)[Index(c)]
  }

  /** A scored reason: the direction it supports and the check that fired. */
  datatype Reason = Reason(polarity: int, check: Check)

  /** The text shown for a reason; any polarity other than 1 reads as
      bearish. */
  function Text(r: Reason): (t: string)
    ensures |t| > 0
    ensures r.check == VolumeSurge ==> t == "成交量放大"
  {
    if r.polarity == 1 then
      match r.check
      case Sweep => "掃 Liquidity (下影線)"
      case RsiTurn => "RSI 低檔反轉"
      case Candle => "K線 (PinBar/吞沒)"
      case BollingerCross => "站回布林中軌"
      case VolumeSurge => "成交量放大"
      case FibTouch => "回踩 Fib 0.618"
    else
      match r.check
      case Sweep => "掃 Liquidity (假突破)"
      case RsiTurn => "RSI 高檔回落"
      case Candle => "K線 (倒鎚/吞沒)"
      case BollingerCross => "跌破布林中軌"
      case VolumeSurge => "成交量放大"
      case FibTouch => "反彈至 Fib 0.618"
  }

  /** Texts identify reasons: two reasons read the same exactly when they
      name the same check and lean the same way, except that the volume
      text is shared by both directions. */
  lemma TextIdentifies(a: Reason, b: Reason)
    ensures Text(a) == Text(b) <==>
      a.check == b.check && ((a.polarity == 1) == (b.polarity == 1) || a.check == VolumeSurge)
  {
  }

  /** The reasons, tagged `dir`, for the checks among the first `k` of the
      evaluation order whose verdict in `flags` is true, in that order. */
  function Select(flags: seq<bool>, dir: int, k: nat): (rs: seq<Reason>)
    requires |flags| == |AllChecks| && k <= |AllChecks|
    ensures |rs| <= k
  {
    if k == 0 then []
    else Select(flags, dir, k - 1) + if flags[k - 1] then [Reason(dir, AllChecks[k - 1])] else []
  }

  /** The reasons a frame earns in direction `dir`, in evaluation order. */
  function Reasons(df: seq<Row>, dir: int): seq<Reason>
    requires |df| >= 2
  {
    Select(Verdicts(df, dir), dir, |AllChecks|)
  }

  /** A reason is selected exactly when it carries `dir` and its check is
      among the first `k` with a true verdict. */
  lemma {:induction false} SelectMembers(flags: seq<bool>, dir: int, k: nat)
    requires |flags| == |AllChecks| && k <= |AllChecks|
    ensures forall r :: r in Select(flags, dir, k) <==>
              r.polarity == dir && Index(r.check) < k && flags[Index(r.check)]
  {
    if k > 0 {
      SelectMembers(flags, dir, k - 1);
    }
  }

  /** The selection follows the evaluation order strictly, so no check
      appears twice. */
  lemma {:induction false} SelectOrdered(flags: seq<bool>, dir: int, k: nat)
    requires |flags| == |AllChecks| && k <= |AllChecks|
    ensures forall i :: 0 <= i < |Select(flags, dir, k)| ==> Index(Select(flags, dir, k)[i].check) < k
    ensures forall i, j :: 0 <= i < j < |Select(flags, dir, k)| ==>
              Index(Select(flags, dir, k)[i].check) < Index(Select(flags, dir, k)[j].check)
  {
    if k > 0 {
      SelectOrdered(flags, dir, k - 1);
      var front, all := Select(flags, dir, k - 1), Select(flags, dir, k);
      assert Index(AllChecks[k - 1]) == k - 1;
      assert forall i :: 0 <= i < |front| ==> all[i] == front[i];
      assert forall i :: |front| <= i < |all| ==> all[i].check == AllChecks[k - 1];
    }
  }

  /** With every verdict false nothing is selected. */
  lemma {:induction false} SelectNone(flags: seq<bool>, dir: int, k: nat)
    requires |flags| == |AllChecks| && k <= |AllChecks|
    requires forall i :: 0 <= i < |flags| ==> !flags[i]
    ensures Select(flags, dir, k) == []
  {
    if k > 0 {
      SelectNone(flags, dir, k - 1);
    }
  }

  /** Verdicts that agree on the first `k` checks select the same checks,
      whatever the tags. */
  lemma {:induction false} SelectRetag(flags: seq<bool>, others: seq<bool>, dir: int, other: int, k: nat)
    requires |flags| == |AllChecks| && |others| == |AllChecks| && k <= |AllChecks|
    requires forall i :: 0 <= i < k ==> others[i] == flags[i]
    ensures |Select(others, other, k)| == |Select(flags, dir, k)|
    ensures forall i :: 0 <= i < |Select(flags, dir, k)| ==>
              Select(others, other, k)[i] == Reason(other, Select(flags, dir, k)[i].check)
  {
    if k > 0 {
      SelectRetag(flags, others, dir, other, k - 1);
    }
  }

  /** The reasons a frame earns: at most six, all tagged with the
      direction, in evaluation order, one for each check exactly when it
      fires, and none without a trend. */
  lemma ReasonsFacts(df: seq<Row>, dir: int)
    requires |df| >= 2
    ensures |Reasons(df, dir)| <= 6
    ensures forall r :: r in Reasons(df, dir) <==> r.polarity == dir && Fires(r.check, df, dir)
    ensures forall i :: 0 <= i < |Reasons(df, dir)| ==> Reasons(df, dir)[i].polarity == dir
    ensures forall i, j :: 0 <= i < j < |Reasons(df, dir)| ==>
              Index(Reasons(df, dir)[i].check) < Index(Reasons(df, dir)[j].check)
    ensures dir != 1 && dir != -1 ==> Reasons(df, dir) == []
  {
    var v := Verdicts(df, dir);
    SelectMembers(v, dir, |AllChecks|);
    SelectOrdered(v, dir, |AllChecks|);
    if dir != 1 && dir != -1 {
      SelectNone(v, dir, |AllChecks|);
    }
    var rs := Reasons(df, dir);
    forall i | 0 <= i < |rs| ensures rs[i].polarity == dir {
      assert rs[i] in rs;
    }
  }

  /** The bull sweep point, stated without the minimum: the latest bar dips
      below every low of the window and closes above at least one of them. */
  lemma SweepBullMeaning(df: seq<Row>)
    requires |df| >= 2
    ensures var w := RecentWindow(df);
            var curr := df[|df| - 1];
            Fires(Sweep, df, 1) <==>
              (forall i :: 0 <= i < |w| ==> curr.low < w[i].low) &&
              (exists i :: 0 <= i < |w| && curr.close > w[i].low)
  {
    var w := RecentWindow(df);
    var m := MinLow(w);
    var i :| 0 <= i < |w| && w[i].low == m;
  }

  /** The bear sweep point: the latest bar reaches above every high of the
      window and closes below at least one of them. */
  lemma SweepBearMeaning(df: seq<Row>)
    requires |df| >= 2
    ensures var w := RecentWindow(df);
            var curr := df[|df| - 1];
            Fires(Sweep, df, -1) <==>
              (forall i :: 0 <= i < |w| ==> curr.high > w[i].high) &&
              (exists i :: 0 <= i < |w| && curr.close < w[i].high)
  {
    var w := RecentWindow(df);
    var m := MaxHigh(w);
    var i :| 0 <= i < |w| && w[i].high == m;
  }

  /** On reflected bars each bull verdict but the Fibonacci one is the bear
      verdict on the originals. */
  lemma BullVerdictsMirror(curr: Row, prev: Row, w: seq<Row>, pivot: real)
    requires |w| > 0
    ensures var b := BullVerdicts(Mirror(curr, pivot), Mirror(prev, pivot), MirrorFrame(w, pivot));
            var a := BearVerdicts(curr, prev, w);
            forall i :: 0 <= i < Index(FibTouch) ==> b[i] == a[i]
  {
    var b := BullVerdicts(Mirror(curr, pivot), Mirror(prev, pivot), MirrorFrame(w, pivot));
    var a := BearVerdicts(curr, prev, w);
    MinLowMirror(w, pivot);
    PatternMirror(curr, prev, pivot);
    assert b[0] == a[0] && b[1] == a[1] && b[2] == a[2] && b[3] == a[3] && b[4] == a[4];
  }

  /** On reflected bars each bear verdict but the Fibonacci one is the bull
      verdict on the originals. */
  lemma BearVerdictsMirror(curr: Row, prev: Row, w: seq<Row>, pivot: real)
    requires |w| > 0
    ensures var b := BearVerdicts(Mirror(curr, pivot), Mirror(prev, pivot), MirrorFrame(w, pivot));
            var a := BullVerdicts(curr, prev, w);
            forall i :: 0 <= i < Index(FibTouch) ==> b[i] == a[i]
  {
    var b := BearVerdicts(Mirror(curr, pivot), Mirror(prev, pivot), MirrorFrame(w, pivot));
    var a := BullVerdicts(curr, prev, w);
    MaxHighMirror(w, pivot);
    PatternMirror(curr, prev, pivot);
    assert b[0] == a[0] && b[1] == a[1] && b[2] == a[2] && b[3] == a[3] && b[4] == a[4];
  }

  /** Reflecting the frame around a price and flipping the direction leaves
      every verdict but the Fibonacci one unchanged. */
  lemma VerdictsMirror(df: seq<Row>, pivot: real, dir: int)
    requires |df| >= 2 && (dir == 1 || dir == -1)
    ensures var u, v := Verdicts(MirrorFrame(df, pivot), -dir), Verdicts(df, dir);
            forall i :: 0 <= i < Index(FibTouch) ==> u[i] == v[i]
  {
    var m := MirrorFrame(df, pivot);
    var curr, prev, w := df[|df| - 1], df[|df| - 2], RecentWindow(df);
    var mc, mp, mw := Mirror(curr, pivot), Mirror(prev, pivot), MirrorFrame(w, pivot);
    assert m[|m| - 1] == mc && m[|m| - 2] == mp;
    RecentWindowMirror(df, pivot);
    if dir == 1 {
      assert Verdicts(m, -dir) == BearVerdicts(mc, mp, mw);
      assert Verdicts(df, dir) == BullVerdicts(curr, prev, w);
      BearVerdictsMirror(curr, prev, w, pivot);
    } else {
      assert Verdicts(m, -dir) == BullVerdicts(mc, mp, mw);
      assert Verdicts(df, dir) == BearVerdicts(curr, prev, w);
      BullVerdictsMirror(curr, prev, w, pivot);
    }
  }

  /** The same, check by check. */
  lemma FiresMirror(c: Check, df: seq<Row>, pivot: real, dir: int)
    requires |df| >= 2 && (dir == 1 || dir == -1) && c != FibTouch
    ensures Fires(c, MirrorFrame(df, pivot), -dir) == Fires(c, df, dir)
  {
    VerdictsMirror(df, pivot, dir);
  }

  /** When the Fibonacci check agrees on the reflected frame, the reflected
      frame in the flipped direction earns the same checks, in the same
      order, with the flipped tag. */
  lemma ReasonsMirror(df: seq<Row>, pivot: real, dir: int)
    requires |df| >= 2 && (dir == 1 || dir == -1)
    requires Fires(FibTouch, MirrorFrame(df, pivot), -dir) == Fires(FibTouch, df, dir)
    ensures var r, m := Reasons(df, dir), Reasons(MirrorFrame(df, pivot), -dir);
            |m| == |r| && forall i :: 0 <= i < |r| ==> m[i] == Reason(-dir, r[i].check)
  {
    var v, u := Verdicts(df, dir), Verdicts(MirrorFrame(df, pivot), -dir);
    VerdictsMirror(df, pivot, dir);
    assert u[Index(FibTouch)] == v[Index(FibTouch)];
    SelectRetag(v, u, dir, -dir, |AllChecks|);
  }

  /** The proximity test alone is not symmetric under reflection: its
      tolerance is relative to the price, and reflection changes the price.
      Price 100 and level 100.45, reflected around 90, become price 80 and
      level 79.55: the distance is the same, but only the first passes. */
  lemma NearLevelNotMirrored()
    ensures NearLevel(100.0, 100.45)
    ensures !NearLevel(2.0 * 90.0 - 100.0, 2.0 * 90.0 - 100.45)
  {
  }

  /** The Fibonacci check is not symmetric under reflection, for two
      reasons: both regimes measure the 0.618 level down from the
      structural high, so the reflected frame's level is not the reflection
      of the original level; and the tolerance is relative to the price
      (see `NearLevelNotMirrored`). Here the bull check fires on a bar at
      the level while the bear check on the reflected frame does not. */
  lemma FibNotMirrored()
    ensures var bar := Row(100.0, 101.0, 99.0, 100.0, 1.0, 0.0, 0.0, None, 50.0,
                           100.0, 1.0, 200.0, 200.0 - 100.0 / 0.618, 1.0);
            var df := [bar, bar];
            Fires(FibTouch, df, 1) && !Fires(FibTouch, MirrorFrame(df, 150.0), -1)
  {
  }
}
