/**
 * The indicator engine of BTCTradingBot (autotrade.py): Pine-Script style
 * RSI, Stochastic RSI, the EMA-ribbon status level, the six-level
 * Bollinger position and the momentum helpers.
 *
 * Prices are exact reals.  The EMAs and the Bollinger bands themselves are
 * produced by pandas (ewm, rolling std) and enter here as inputs.  pandas
 * NaN values that the source replaces by 50 are modelled by the explicit
 * cases that produce them.
 */
module Indicators {
  import opened Common

  // ---------------------------------------------------------------------
  // RSI (calculate_rsi)
  // ---------------------------------------------------------------------

  /** The default RSI period used by every caller. */
  const RSI_PERIODS: nat := 14

  /** prices.diff() at bar i. */
  function Change(p: seq<real>, i: nat): real
    requires 1 <= i < |p|
  {
    p[i] - p[i - 1]
  }

  /** The gain (up) or the loss (not up) at bar i: the positive or the negated negative part of the change. */
  function Move(p: seq<real>, i: nat, up: bool): (r: real)
    requires 1 <= i < |p|
    ensures r >= 0.0
  {
    var c := Change(p, i);
    if up then (if c >= 0.0 then c else 0.0) else (if c < 0.0 then -c else 0.0)
  }

  /** Sum of the gains (or losses) of bars lo .. hi-1. */
  function MoveSum(p: seq<real>, up: bool, lo: nat, hi: nat): real
    requires 1 <= lo <= hi <= |p|
    decreases hi - lo
  {
    if lo == hi then 0.0 else Move(p, lo, up) + MoveSum(p, up, lo + 1, hi)
  }

  /**
   * Wilder's running average ("rma") of the gains or losses at bar i: the
   * plain mean of the first `periods` moves at bar `periods`, then
   * (move + (periods - 1) * previous) / periods.
   */
  function Rma(p: seq<real>, periods: nat, up: bool, i: nat): (r: real)
    requires 1 <= periods <= i < |p|
    ensures r >= 0.0
    decreases i
  {
    if i == periods then
      MoveSumNonNegative(p, up, 1, periods + 1);
      MoveSum(p, up, 1, periods + 1) / (periods as real)
    else RmaStep(Move(p, i, up), Rma(p, periods, up, i - 1), periods)
  }

  /** One step of the running average: (move + (periods - 1) * previous) / periods. */
  function RmaStep(move: real, previous: real, periods: nat): (r: real)
    requires periods >= 1
    ensures move >= 0.0 && previous >= 0.0 ==> r >= 0.0
    ensures move > 0.0 && previous >= 0.0 ==> r > 0.0
    ensures move == 0.0 && previous == 0.0 ==> r == 0.0
  {
    (move + ((periods - 1) as real) * previous) / (periods as real)
  }

  /** 100 - 100 / (1 + rs) with rs = gain / loss and a positive loss. */
  function RsiRaw(gain: real, loss: real): real
    requires gain >= 0.0 && loss > 0.0
  {
    100.0 - 100.0 / (1.0 + gain / loss)
  }

  /**
   * The RSI of one bar from its two averages.  A zero average loss makes
   * rs infinite (RSI 100) when the gain is positive and NaN (replaced by 50)
   * when the gain is zero too; the result is clipped to [0, 100].
   */
  function RsiFromAverages(gain: real, loss: real): (r: real)
    requires gain >= 0.0 && loss >= 0.0
    ensures 0.0 <= r <= 100.0
    ensures loss > 0.0 ==> r == RsiRaw(gain, loss)
    ensures loss == 0.0 ==> r == (if gain > 0.0 then 100.0 else 50.0)
  {
    if loss == 0.0 then (if gain == 0.0 then 50.0 else 100.0)
    else
      RsiRawInRange(gain, loss);
      Clip(RsiRaw(gain, loss), 0.0, 100.0)
  }

  /**
   * The RSI series at bar i: 50 for a series shorter than periods + 1 and
   * for the bars before index `periods` (whose averages are NaN).
   */
  function RsiAt(p: seq<real>, periods: nat, i: nat): (r: real)
    requires periods >= 1 && i < |p|
    ensures 0.0 <= r <= 100.0
    ensures |p| < periods + 1 || i < periods ==> r == 50.0
  {
    if |p| < periods + 1 || i < periods then 50.0
    else
      RsiFromAverages(Rma(p, periods, true, i), Rma(p, periods, false, i))
  }

  /** The whole RSI series of a price series. */
  function RsiSeries(p: seq<real>, periods: nat): (r: seq<real>)
    requires periods >= 1
    ensures |r| == |p|
  {
    seq(|p|, i requires 0 <= i < |p| => RsiAt(p, periods, i))
  }

  lemma {:induction false} MoveSumNonNegative(p: seq<real>, up: bool, lo: nat, hi: nat)
    requires 1 <= lo <= hi <= |p|
    ensures MoveSum(p, up, lo, hi) >= 0.0
    decreases hi - lo
  {
    if lo < hi {
      MoveSumNonNegative(p, up, lo + 1, hi);
    }
  }

  /** The formula itself stays in [0, 100) for a positive loss: the final clip never bites. */
  lemma RsiRawInRange(gain: real, loss: real)
    requires gain >= 0.0 && loss > 0.0
    ensures 0.0 <= RsiRaw(gain, loss) < 100.0
  {
    var rs := gain / loss;
    assert rs >= 0.0;
    var q := 100.0 / (1.0 + rs);
    assert 0.0 < q <= 100.0 by {
      assert 1.0 + rs >= 1.0;
      assert q * (1.0 + rs) == 100.0;
    }
  }

  /** Every bar of a strictly rising series adds a gain and no loss. */
  predicate StrictlyRising(p: seq<real>)
  {
    forall i :: 1 <= i < |p| ==> p[i - 1] < p[i]
  }

  predicate StrictlyFalling(p: seq<real>)
  {
    forall i :: 1 <= i < |p| ==> p[i - 1] > p[i]
  }

  lemma {:induction false} MoveSumOnRise(p: seq<real>, lo: nat, hi: nat)
    requires 1 <= lo <= hi <= |p|
    requires forall i :: lo <= i < hi ==> p[i - 1] < p[i]
    ensures MoveSum(p, false, lo, hi) == 0.0
    ensures lo < hi ==> MoveSum(p, true, lo, hi) > 0.0
    decreases hi - lo
  {
    if lo < hi {
      MoveSumOnRise(p, lo + 1, hi);
      MoveSumNonNegative(p, true, lo + 1, hi);
    }
  }

  lemma {:induction false} MoveSumOnFall(p: seq<real>, lo: nat, hi: nat)
    requires 1 <= lo <= hi <= |p|
    requires forall i :: lo <= i < hi ==> p[i - 1] > p[i]
    ensures MoveSum(p, true, lo, hi) == 0.0
    ensures lo < hi ==> MoveSum(p, false, lo, hi) > 0.0
    decreases hi - lo
  {
    if lo < hi {
      MoveSumOnFall(p, lo + 1, hi);
      MoveSumNonNegative(p, false, lo + 1, hi);
    }
  }

  lemma {:induction false} RmaOnRise(p: seq<real>, periods: nat, i: nat)
    requires 1 <= periods <= i < |p| && StrictlyRising(p)
    ensures Rma(p, periods, false, i) == 0.0
    ensures Rma(p, periods, true, i) > 0.0
    decreases i
  {
    if i == periods {
      MoveSumOnRise(p, 1, periods + 1);
      assert Rma(p, periods, false, i) == MoveSum(p, false, 1, periods + 1) / (periods as real);
      var total := MoveSum(p, true, 1, periods + 1);
      assert total > 0.0;
      assert Rma(p, periods, true, i) == total / (periods as real);
      assert total / (periods as real) > 0.0;
    } else {
      RmaOnRise(p, periods, i - 1);
      assert Move(p, i, false) == 0.0 && Move(p, i, true) > 0.0;
      assert Rma(p, periods, false, i) == RmaStep(Move(p, i, false), Rma(p, periods, false, i - 1), periods);
      assert Rma(p, periods, true, i) == RmaStep(Move(p, i, true), Rma(p, periods, true, i - 1), periods);
    }
  }

  lemma {:induction false} RmaOnFall(p: seq<real>, periods: nat, i: nat)
    requires 1 <= periods <= i < |p| && StrictlyFalling(p)
    ensures Rma(p, periods, true, i) == 0.0
    ensures Rma(p, periods, false, i) > 0.0
    decreases i
  {
    if i == periods {
      MoveSumOnFall(p, 1, periods + 1);
      assert Rma(p, periods, true, i) == MoveSum(p, true, 1, periods + 1) / (periods as real);
      var total := MoveSum(p, false, 1, periods + 1);
      assert total > 0.0;
      assert Rma(p, periods, false, i) == total / (periods as real);
      assert total / (periods as real) > 0.0;
    } else {
      RmaOnFall(p, periods, i - 1);
      assert Move(p, i, true) == 0.0 && Move(p, i, false) > 0.0;
      assert Rma(p, periods, true, i) == RmaStep(Move(p, i, true), Rma(p, periods, true, i - 1), periods);
      assert Rma(p, periods, false, i) == RmaStep(Move(p, i, false), Rma(p, periods, false, i - 1), periods);
    }
  }

  /** On a strictly rising series every RSI value from index `periods` on is exactly 100. */
  lemma RsiOfRisingSeries(p: seq<real>, periods: nat, i: nat)
    requires periods >= 1 && periods <= i < |p| && StrictlyRising(p)
    ensures RsiAt(p, periods, i) == 100.0
  {
    RmaOnRise(p, periods, i);
  }

  /** On a strictly falling series every RSI value from index `periods` on is exactly 0. */
  lemma RsiOfFallingSeries(p: seq<real>, periods: nat, i: nat)
    requires periods >= 1 && periods <= i < |p| && StrictlyFalling(p)
    ensures RsiAt(p, periods, i) == 0.0
  {
    RmaOnFall(p, periods, i);
    var l := Rma(p, periods, false, i);
    assert RsiRaw(0.0, l) == 0.0;
  }

  /**
   * calculate_rsi: the running averages are filled in place, index by
   * index, in two arrays; the result has the input's length and every
   * entry is the RSI of that bar.
   */
  method CalculateRsi(prices: seq<real>, periods: nat) returns (rsi: seq<real>)
    requires periods >= 1
    ensures |rsi| == |prices|
    ensures forall i :: 0 <= i < |prices| ==> rsi[i] == RsiAt(prices, periods, i)
    ensures forall i :: 0 <= i < |rsi| ==> 0.0 <= rsi[i] <= 100.0
    ensures |prices| < periods + 1 ==> forall i :: 0 <= i < |rsi| ==> rsi[i] == 50.0
    ensures forall i :: 0 <= i < |rsi| && i < periods ==> rsi[i] == 50.0
  {
    var n := |prices|;
    if n < periods + 1 {
      rsi := seq(n, _ => 50.0);
      return;
    }
    var gains := FillRma(prices, periods, true);
    var losses := FillRma(prices, periods, false);
    var out := new real[n](_ => 50.0);
    var i := periods;
    while i < n
      invariant periods <= i <= n
      invariant forall j :: 0 <= j < n ==> out[j] == (if periods <= j < i then RsiAt(prices, periods, j) else 50.0)
    {
      out[i] := RsiFromAverages(gains[i], losses[i]);
      i := i + 1;
    }
    rsi := out[..];
  }

  /**
   * Fills avg_gains (up) or avg_losses (not up) in place: the first
   * average at index `periods`, then each from its predecessor.
   */
  method FillRma(prices: seq<real>, periods: nat, up: bool) returns (avg: seq<real>)
    requires 1 <= periods < |prices|
    ensures |avg| == |prices|
    ensures forall j :: periods <= j < |prices| ==> avg[j] == Rma(prices, periods, up, j)
  {
    var n := |prices|;
    var a := new real[n];
    a[periods] := MoveSum(prices, up, 1, periods + 1) / (periods as real);
    var i := periods + 1;
    while i < n
      invariant periods + 1 <= i <= n
      invariant forall j :: periods <= j < i ==> a[j] == Rma(prices, periods, up, j)
    {
      a[i] := RmaStep(Move(prices, i, up), a[i - 1], periods);
      i := i + 1;
    }
    avg := a[..];
  }

  // ---------------------------------------------------------------------
  // Stochastic RSI (calculate_stoch_rsi)
  // ---------------------------------------------------------------------

  /**
   * K_raw at bar i: where the current RSI sits between the lowest and the
   * highest of the trailing `period` RSI values, 50 when they coincide.
   */
  function KRaw(rsi: seq<real>, period: nat, i: nat): (r: real)
    requires 1 <= period <= i + 1 && i < |rsi|
    ensures 0.0 <= r <= 100.0
    ensures var w := rsi[i + 1 - period .. i + 1];
      (SeqMax(w) == SeqMin(w) ==> r == 50.0) &&
      (SeqMax(w) != SeqMin(w) && rsi[i] == SeqMax(w) ==> r == 100.0) &&
      (SeqMax(w) != SeqMin(w) && rsi[i] == SeqMin(w) ==> r == 0.0)
  {
    var w := rsi[i + 1 - period .. i + 1];
    var hi := SeqMax(w);
    var lo := SeqMin(w);
    assert w[period - 1] == rsi[i];
    if hi == lo then 50.0
    else
      ScaleToPercent(rsi[i], lo, hi);
      100.0 * ((rsi[i] - lo) / (hi - lo))
  }

  /** Scaling x within [lo, hi] to a percentage: 0 at lo, 100 at hi, and in between otherwise. */
  lemma ScaleToPercent(x: real, lo: real, hi: real)
    requires lo <= x <= hi && lo != hi
    ensures 0.0 <= 100.0 * ((x - lo) / (hi - lo)) <= 100.0
    ensures x == hi ==> 100.0 * ((x - lo) / (hi - lo)) == 100.0
    ensures x == lo ==> 100.0 * ((x - lo) / (hi - lo)) == 0.0
  {
    FractionInUnit(x - lo, hi - lo);
    if x == hi {
      assert (x - lo) / (hi - lo) == 1.0;
    }
  }

  /** x / y lies in [0, 1] when 0 <= x <= y and y is positive. */
  lemma FractionInUnit(x: real, y: real)
    requires 0.0 <= x <= y && y > 0.0
    ensures 0.0 <= x / y <= 1.0
  {
    var t := x / y;
    assert t * y == x;
  }

  /**
   * K_raw as a column: bars before `period` are NaN in the source; they
   * hold 0 here and are never read (every rolling window starts at `period`).
   */
  function KRawSeries(rsi: seq<real>, period: nat): (r: seq<real>)
    requires period >= 1
    ensures |r| == |rsi|
  {
    seq(|rsi|, j requires 0 <= j < |rsi| => if j < period then 0.0 else KRaw(rsi, period, j))
  }

  /** First index of the rolling window of width w ending at i, cut at the first defined bar. */
  function WindowStart(first: nat, w: nat, i: nat): (lo: nat)
    requires w >= 1 && first <= i
    ensures first <= lo <= i
  {
    if i + 1 >= first + w then i + 1 - w else first
  }

  /** rolling(window=w, min_periods=1).mean() at bar i of a column that is NaN before `first`. */
  function RollingMean(xs: seq<real>, first: nat, w: nat, i: nat): (r: real)
    requires w >= 1 && first <= i < |xs|
    ensures w == 1 || i == first ==> r == xs[i]
  {
    var window := xs[WindowStart(first, w, i) .. i + 1];
    assert |window| == 1 ==> Sum(window) == window[0] by {
      if |window| == 1 {
        assert window[..0] == [];
      }
    }
    Mean(window)
  }

  /** A whole rolling-mean column: undefined (0 here) before `first`. */
  function RollingColumn(xs: seq<real>, first: nat, w: nat): (r: seq<real>)
    requires w >= 1
    ensures |r| == |xs|
  {
    seq(|xs|, j requires 0 <= j < |xs| => if j < first then 0.0 else RollingMean(xs, first, w, j))
  }

  /** The smoothed, not yet clipped, K column. */
  function SmoothedK(rsi: seq<real>, period: nat, smoothK: nat): (r: seq<real>)
    requires period >= 1 && smoothK >= 1
    ensures |r| == |rsi|
  {
    RollingColumn(KRawSeries(rsi, period), period, smoothK)
  }

  /** The D column: the rolling mean of the smoothed K column. */
  function SmoothedD(rsi: seq<real>, period: nat, smoothK: nat, smoothD: nat): (r: seq<real>)
    requires period >= 1 && smoothK >= 1 && smoothD >= 1
    ensures |r| == |rsi|
  {
    RollingColumn(SmoothedK(rsi, period, smoothK), period, smoothD)
  }

  /** After ffill/fillna(50) and clip(0, 100): 50 before `period`, the clipped value after. */
  function Finish(xs: seq<real>, period: nat): (r: seq<real>)
    ensures |r| == |xs|
  {
    seq(|xs|, j requires 0 <= j < |xs| => if j < period then 50.0 else Clip(xs[j], 0.0, 100.0))
  }

  /** Rolling means of a column whose defined part lies in [lo, hi] lie in [lo, hi]. */
  lemma RollingMeanBounds(xs: seq<real>, first: nat, w: nat, i: nat, lo: real, hi: real)
    requires w >= 1 && first <= i < |xs|
    requires forall j :: first <= j < |xs| ==> lo <= xs[j] <= hi
    ensures lo <= RollingMean(xs, first, w, i) <= hi
  {
    var s := xs[WindowStart(first, w, i) .. i + 1];
    assert AllIn(s, lo, hi);
    MeanBounds(s, lo, hi);
  }

  /**
   * Smoothing keeps K and D inside [0, 100] before the clip: the final
   * clip(0, 100) of the source never changes a value.
   */
  lemma StochSmoothingInRange(rsi: seq<real>, period: nat, smoothK: nat, smoothD: nat, i: nat)
    requires period >= 1 && smoothK >= 1 && smoothD >= 1 && period <= i < |rsi|
    ensures 0.0 <= SmoothedK(rsi, period, smoothK)[i] <= 100.0
    ensures 0.0 <= SmoothedD(rsi, period, smoothK, smoothD)[i] <= 100.0
  {
    var raw := KRawSeries(rsi, period);
    var ks := SmoothedK(rsi, period, smoothK);
    forall j | period <= j < |rsi| ensures 0.0 <= ks[j] <= 100.0 {
      RollingMeanBounds(raw, period, smoothK, j, 0.0, 100.0);
    }
    RollingMeanBounds(ks, period, smoothD, i, 0.0, 100.0);
  }

  /**
   * calculate_stoch_rsi: K_raw is written per index, then smoothed into K
   * and D.  A series shorter than period + smoothK + smoothD yields 50
   * everywhere, as does every bar before `period`.  The underlying RSI
   * always uses the default 14 periods, whatever `period` is.
   */
  method CalculateStochRsi(prices: seq<real>, period: nat, smoothK: nat, smoothD: nat)
    returns (k: seq<real>, d: seq<real>)
    requires period >= 1 && smoothK >= 1 && smoothD >= 1
    ensures |k| == |prices| && |d| == |prices|
    ensures |prices| < period + smoothK + smoothD ==>
      forall i :: 0 <= i < |prices| ==> k[i] == 50.0 && d[i] == 50.0
    ensures |prices| >= period + smoothK + smoothD ==>
      var rsi := RsiSeries(prices, RSI_PERIODS);
      k == Finish(SmoothedK(rsi, period, smoothK), period) &&
      d == Finish(SmoothedD(rsi, period, smoothK, smoothD), period)
    ensures forall i :: 0 <= i < |prices| ==> 0.0 <= k[i] <= 100.0 && 0.0 <= d[i] <= 100.0
    ensures forall i :: 0 <= i < |prices| && i < period ==> k[i] == 50.0 && d[i] == 50.0
  {
    var n := |prices|;
    if n < period + smoothK + smoothD {
      k := seq(n, _ => 50.0);
      d := k;
      return;
    }
    var rsi := CalculateRsi(prices, RSI_PERIODS);
    assert rsi == RsiSeries(prices, RSI_PERIODS);
    var raw := FillKRaw(rsi, period);
    var ks := FillRolling(raw, period, smoothK);
    var ds := FillRolling(ks, period, smoothD);
    k := Finish(ks, period);
    d := Finish(ds, period);
  }

  /** Writes K_raw index by index from `period` on. */
  method FillKRaw(rsi: seq<real>, period: nat) returns (raw: seq<real>)
    requires period >= 1
    ensures raw == KRawSeries(rsi, period)
  {
    var n := |rsi|;
    var a := new real[n](_ => 0.0);
    var i := period;
    while i < n
      invariant period <= i || n <= i
      invariant i <= n || i == period
      invariant forall j :: 0 <= j < n ==> a[j] == (if period <= j < i then KRaw(rsi, period, j) else 0.0)
    {
      a[i] := KRaw(rsi, period, i);
      i := i + 1;
    }
    raw := a[..];
  }

  /** Writes a rolling-mean column index by index from `first` on. */
  method FillRolling(xs: seq<real>, first: nat, w: nat) returns (r: seq<real>)
    requires w >= 1
    ensures r == RollingColumn(xs, first, w)
  {
    var n := |xs|;
    var a := new real[n](_ => 0.0);
    var i := first;
    while i < n
      invariant first <= i || n <= i
      invariant i <= n || i == first
      invariant forall j :: 0 <= j < n ==> a[j] == (if first <= j < i then RollingMean(xs, first, w, j) else 0.0)
    {
      a[i] := RollingMean(xs, first, w, i);
      i := i + 1;
    }
    r := a[..];
  }

  // ---------------------------------------------------------------------
  // EMA ribbon (analyze_ema_ribbon)
  // ---------------------------------------------------------------------

  /** The four ribbon EMAs the analysis reads (EMA_20 is computed but unused). */
  datatype RibbonRow = RibbonRow(ema5: real, ema10: real, ema30: real, ema50: real)

  function Count(b: bool): nat { if b then 1 else 0 }

  /** Number of short EMAs above their paired long EMA (5 vs 30, 10 vs 50). */
  function TrendStrength(last: RibbonRow): (r: nat)
    ensures r <= 2
    ensures r == 2 <==> last.ema5 > last.ema30 && last.ema10 > last.ema50
    ensures r == 0 <==> last.ema5 <= last.ema30 && last.ema10 <= last.ema50
  {
    Count(last.ema5 > last.ema30) + Count(last.ema10 > last.ema50)
  }

  /** Number of the four EMAs whose one-bar slope is positive. */
  function SlopeStrength(last: RibbonRow, prev: RibbonRow): (r: nat)
    ensures r <= 4
  {
    Count(last.ema5 - prev.ema5 > 0.0) + Count(last.ema10 - prev.ema10 > 0.0) +
    Count(last.ema30 - prev.ema30 > 0.0) + Count(last.ema50 - prev.ema50 > 0.0)
  }

  /** The ribbon status level 0 (strong bearish) .. 4 (strong bullish). */
  function EmaRibbonLevel(last: RibbonRow, prev: RibbonRow, price: real, ema200: real): (r: nat)
    ensures r <= 4
    ensures r >= 3 <==> last.ema5 > last.ema30 && last.ema10 > last.ema50 && price > ema200
    ensures r == 4 <==> r >= 3 && SlopeStrength(last, prev) >= 3
    ensures r == 2 <==> (price > ema200 && TrendStrength(last) < 2)
                        || (price <= ema200 && TrendStrength(last) == 1)
    ensures r == 1 <==> price <= ema200 && TrendStrength(last) == 0 && SlopeStrength(last, prev) <= 1
  {
    var trend := TrendStrength(last);
    var slope := SlopeStrength(last, prev);
    var bullish := price > ema200;
    if trend >= 2 && slope >= 3 && bullish then 4
    else if trend >= 2 && bullish then 3
    else if trend == 1 || bullish then 2
    else if trend == 0 && slope <= 1 then 1
    else 0
  }

  /** The Korean status label stored beside the level. */
  function EmaStatusLabel(level: nat): (r: string)
    requires level <= 4
    ensures r != "중립"
  {
    match level
    case 4 => "강한 상승세"
    case 3 => "약한 상승세"
    case 2 => "상승 가능성"
    case 1 => "약한 하락세"
    case _ => "강한 하락세"
  }

  /** Each of the five EMA levels has its own label. */
  lemma EmaStatusLabelsDistinct(l1: nat, l2: nat)
    requires l1 <= 4 && l2 <= 4 && l1 != l2
    ensures EmaStatusLabel(l1) != EmaStatusLabel(l2)
  {
  }

  /** Both pairs agreeing is not enough: with the price at or below EMA200 the cascade falls through to 0. */
  lemma EmaAlignedBelowTrendFilter(last: RibbonRow, prev: RibbonRow, price: real, ema200: real)
    requires last.ema5 > last.ema30 && last.ema10 > last.ema50 && price <= ema200
    ensures EmaRibbonLevel(last, prev, price, ema200) == 0
  {
  }

  /** Raising the price (everything else fixed) never lowers the ribbon level. */
  lemma EmaLevelMonotoneInPrice(last: RibbonRow, prev: RibbonRow, p1: real, p2: real, ema200: real)
    requires p1 <= p2
    ensures EmaRibbonLevel(last, prev, p1, ema200) <= EmaRibbonLevel(last, prev, p2, ema200)
  {
  }

  // ---------------------------------------------------------------------
  // Bollinger position (calculate_indicators)
  // ---------------------------------------------------------------------

  const THIRD: real := 0.33

  function UpperThird(upper: real, middle: real): real { upper - (upper - middle) * THIRD }
  function LowerThird(middle: real, lower: real): real { lower + (middle - lower) * THIRD }

  /**
   * The six-level position: 5 at or above the upper band, 4 in its top
   * "third" (factor 0.33), 3 down to the middle band, 2 down to the lower
   * "third", 1 down to the lower band, 0 below it.
   */
  function BollingerLevel(price: real, upper: real, middle: real, lower: real): (r: nat)
    ensures r <= 5
    ensures r == 5 <==> price >= upper
    ensures r == 0 <==> price < upper && price < UpperThird(upper, middle) && price < middle
                        && price < LowerThird(middle, lower) && price < lower
  {
    if price >= upper then 5
    else if price >= UpperThird(upper, middle) then 4
    else if price >= middle then 3
    else if price >= LowerThird(middle, lower) then 2
    else if price >= lower then 1
    else 0
  }

  /** The label stored beside the level in the analysis results. */
  function BollingerLabel(level: nat): (r: string)
    requires level <= 5
    ensures r != "undefined"
  {
    match level
    case 5 => "extreme_upper"
    case 4 => "upper_strong"
    case 3 => "upper_weak"
    case 2 => "lower_weak"
    case 1 => "lower_strong"
    case _ => "extreme_lower"
  }

  /** Each of the six Bollinger levels has its own position name. */
  lemma BollingerLabelsDistinct(l1: nat, l2: nat)
    requires l1 <= 5 && l2 <= 5 && l1 != l2
    ensures BollingerLabel(l1) != BollingerLabel(l2)
  {
  }

  /** With ordered bands the cut points are ordered too. */
  lemma BollingerThresholdsOrdered(upper: real, middle: real, lower: real)
    requires lower <= middle <= upper
    ensures lower <= LowerThird(middle, lower) <= middle <= UpperThird(upper, middle) <= upper
  {
  }

  /** With lower <= middle <= upper, a higher price never gets a lower level. */
  lemma BollingerMonotone(p1: real, p2: real, upper: real, middle: real, lower: real)
    requires lower <= middle <= upper && p1 <= p2
    ensures BollingerLevel(p1, upper, middle, lower) <= BollingerLevel(p2, upper, middle, lower)
  {
    BollingerThresholdsOrdered(upper, middle, lower);
  }

  /** With ordered bands, level 0 means exactly "below the lower band". */
  lemma BollingerExtremeLower(price: real, upper: real, middle: real, lower: real)
    requires lower <= middle <= upper
    ensures BollingerLevel(price, upper, middle, lower) == 0 <==> price < lower
  {
    BollingerThresholdsOrdered(upper, middle, lower);
  }

  /** The Bollinger part of the analysis results. */
  datatype BollingerInfo = BollingerInfo(
    level: Option<nat>,  // bollinger_position_num; absent on the fallback path
    position: string,    // bollinger_position
    upper: real, middle: real, lower: real,
    bandWidth: real,     // band_width, in percent of the middle band
    bandPosition: real   // band_position_percentage
  )

  /**
   * The Bollinger block of calculate_indicators.  Band width divides by
   * the middle band and the position by the band span; when either is
   * zero Python raises ZeroDivisionError and the except branch stores the
   * fallback (label 'undefined', bands at ±2 %, width 4, position 50).
   * That branch never stores bollinger_position_num.
   */
  function BollingerBlock(price: real, upper: real, middle: real, lower: real): (r: BollingerInfo)
    ensures r.level.None? <==> middle == 0.0 || upper == lower
    ensures r.level.Some? ==> r.level.value == BollingerLevel(price, upper, middle, lower)
                              && r.position == BollingerLabel(r.level.value)
    ensures r.level.Some? && lower < upper ==> (r.bandPosition >= 100.0 <==> r.level.value == 5)
  {
    if middle == 0.0 || upper == lower then
      BollingerInfo(None, "undefined", price * 1.02, price, price * 0.98, 4.0, 50.0)
    else
      var level := BollingerLevel(price, upper, middle, lower);
      var position := (price - lower) / (upper - lower) * 100.0;
      assert lower < upper ==> (position >= 100.0 <==> price >= upper) by {
        if lower < upper {
          RatioAtLeastOne(price - lower, upper - lower);
        }
      }
      BollingerInfo(Some(level), BollingerLabel(level), upper, middle, lower,
                    (upper - lower) / middle * 100.0, position)
  }

  /** a / b >= 1 exactly when a >= b, for positive b. */
  lemma RatioAtLeastOne(a: real, b: real)
    requires b > 0.0
    ensures a / b * 100.0 >= 100.0 <==> a >= b
  {
    var t := a / b;
    assert t * b == a;
    if a >= b {
      assert t >= 1.0;
    } else {
      assert t < 1.0;
    }
  }

  // ---------------------------------------------------------------------
  // Momentum
  // ---------------------------------------------------------------------

  /**
   * calculate_momentum: the relative change over `period` bars, 0 for a
   * series of length <= period, and 0 when the past price is zero (the
   * ZeroDivisionError is caught).
   */
  function Momentum(closes: seq<real>, period: nat): (r: real)
    ensures |closes| < period + 1 ==> r == 0.0
    ensures |closes| >= period + 1 && closes[|closes| - period - 1] > 0.0 ==>
      (r > 0.0 <==> closes[|closes| - 1] > closes[|closes| - period - 1])
  {
    if |closes| < period + 1 then 0.0
    else
      var current := closes[|closes| - 1];
      var past := closes[|closes| - period - 1];
      if past == 0.0 then 0.0
      else
        assert (current - past) / past * past == current - past;
        (current - past) / past
  }

  /**
   * The momentum calculate_indicators actually stores: a one-bar change
   * (iloc[-2]), 0 when there is no previous bar or the previous close is zero.
   */
  function OneBarMomentum(closes: seq<real>): (r: real)
    ensures r == Momentum(closes, 1)
  {
    if |closes| < 2 then 0.0
    else
      var previous := closes[|closes| - 2];
      if previous == 0.0 then 0.0 else (closes[|closes| - 1] - previous) / previous
  }
}
