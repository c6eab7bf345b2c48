/** The indicator calculator: true range, average true range (ATR) and ATR as
    a percentage of price. */
module Indicator {

  /** One OHLCV observation; prices are exact reals. */
  datatype Candle = Candle(openTime: int, open: real, high: real, low: real, close: real, volume: real)

  function Abs(x: real): real {
    if x < 0.0 then -x else x
  }

  function Max(a: real, b: real): real {
    if a >= b then a else b
  }

  /** The largest of the three spans of a candle measured against the previous close. */
  function TrueRange(high: real, low: real, prevClose: real): (tr: real)
    ensures tr >= 0.0
    ensures tr >= high - low && tr >= Abs(high - prevClose) && tr >= Abs(low - prevClose)
  {
    Max(Max(high - low, Abs(high - prevClose)), Abs(low - prevClose))
  }

  /** The true range is one of its three spans, so it is their least upper bound. */
  lemma TrueRangeAttained(high: real, low: real, prevClose: real)
    ensures var tr := TrueRange(high, low, prevClose);
      tr == high - low || tr == Abs(high - prevClose) || tr == Abs(low - prevClose)
  {
  }

  /** The true-range column: the first candle has no previous close, so the
      two gap terms are missing and the maximum of what is left is high - low. */
  function TrueRanges(candles: seq<Candle>): seq<real> {
    seq(|candles|, i requires 0 <= i < |candles| =>
      if i == 0 then candles[0].high - candles[0].low
      else TrueRange(candles[i].high, candles[i].low, candles[i - 1].close))
  }

  /** The last `period` true ranges: each belongs to a candle with a previous close. */
  function Window(candles: seq<Candle>, period: int): (w: seq<real>)
    requires 1 <= period && period + 1 <= |candles|
    ensures |w| == period
    ensures forall k :: 0 <= k < period ==>
      w[k] == TrueRange(candles[|candles| - period + k].high, candles[|candles| - period + k].low,
                        candles[|candles| - period + k - 1].close)
  {
    TrueRanges(candles)[|candles| - period..]
  }

  function Sum(xs: seq<real>): real {
    if |xs| == 0 then 0.0 else xs[0] + Sum(xs[1..])
  }

  function Mean(xs: seq<real>): real
    requires |xs| > 0
  {
    Sum(xs) / (|xs| as real)
  }

  lemma {:induction false} SumLowerBound(xs: seq<real>, lo: real)
    requires forall i :: 0 <= i < |xs| ==> lo <= xs[i]
    ensures lo * (|xs| as real) <= Sum(xs)
  {
    if |xs| > 0 {
      SumLowerBound(xs[1..], lo);
      assert (|xs| as real) == 1.0 + (|xs[1..]| as real);
    }
  }

  lemma {:induction false} SumUpperBound(xs: seq<real>, hi: real)
    requires forall i :: 0 <= i < |xs| ==> xs[i] <= hi
    ensures Sum(xs) <= hi * (|xs| as real)
  {
    if |xs| > 0 {
      SumUpperBound(xs[1..], hi);
      assert (|xs| as real) == 1.0 + (|xs[1..]| as real);
    }
  }

  /** A mean lies within any bounds that hold for every element. */
  lemma MeanBounds(xs: seq<real>, lo: real, hi: real)
    requires |xs| > 0
    requires forall i :: 0 <= i < |xs| ==> lo <= xs[i] <= hi
    ensures lo <= Mean(xs) <= hi
  {
    SumLowerBound(xs, lo);
    SumUpperBound(xs, hi);
    var n := |xs| as real;
    assert lo * n <= Sum(xs) <= hi * n;
    assert lo == (lo * n) / n && hi == (hi * n) / n;
  }

  /** `calculate_atr`: 0.0 when there are fewer than period + 1 candles,
      otherwise the simple mean of the last `period` true ranges. */
  function Atr(candles: seq<Candle>, period: int): (atr: real)
    requires period >= 1
    ensures |candles| < period + 1 ==> atr == 0.0
    ensures atr >= 0.0
  {
    if |candles| < period + 1 then 0.0
    else
      var w := Window(candles, period);
      SumLowerBound(w, 0.0);
      Mean(w)
  }

  /** With enough history, the ATR lies between the smallest and the largest
      true range of the window, and is at least the mean high - low span. */
  lemma AtrBounds(candles: seq<Candle>, period: int, lo: real, hi: real)
    requires 1 <= period && period + 1 <= |candles|
    requires forall k :: 0 <= k < period ==> lo <= Window(candles, period)[k] <= hi
    ensures lo <= Atr(candles, period) <= hi
  {
    MeanBounds(Window(candles, period), lo, hi);
  }

  /** The high - low spans of the last `period` candles. */
  function Spans(candles: seq<Candle>, period: int): (spans: seq<real>)
    requires 1 <= period && period <= |candles|
    ensures |spans| == period
  {
    seq(period, k requires 0 <= k < period =>
      candles[|candles| - period + k].high - candles[|candles| - period + k].low)
  }

  lemma {:induction false} SumMonotone(xs: seq<real>, ys: seq<real>)
    requires |xs| == |ys|
    requires forall i :: 0 <= i < |xs| ==> xs[i] <= ys[i]
    ensures Sum(xs) <= Sum(ys)
  {
    if |xs| > 0 {
      SumMonotone(xs[1..], ys[1..]);
    }
  }

  /** Gaps only add to the range: the ATR is at least the mean intrabar span. */
  lemma AtrAtLeastMeanSpan(candles: seq<Candle>, period: int)
    requires 1 <= period && period + 1 <= |candles|
    ensures Mean(Spans(candles, period)) <= Atr(candles, period)
  {
    var spans, w := Spans(candles, period), Window(candles, period);
    SumMonotone(spans, w);
    DivideMonotone(Sum(spans), Sum(w), period as real);
  }

  lemma DivideMonotone(a: real, b: real, n: real)
    requires a <= b && n > 0.0
    ensures a / n <= b / n
  {
  }

  /** Only the last period + 1 candles matter, so fetching period + 50 candles
      is enough history. */
  lemma AtrUsesLastCandlesOnly(candles: seq<Candle>, period: int)
    requires 1 <= period && period + 1 <= |candles|
    ensures Atr(candles, period) == Atr(candles[|candles| - (period + 1)..], period)
  {
    var tail := candles[|candles| - (period + 1)..];
    assert Window(candles, period) == Window(tail, period);
  }

  /** A series that never moves has no range at all. */
  lemma AtrFlatSeries(candles: seq<Candle>, period: int, price: real)
    requires period >= 1
    requires forall i :: 0 <= i < |candles| ==>
      candles[i].high == price && candles[i].low == price && candles[i].close == price
    ensures Atr(candles, period) == 0.0
  {
    if period + 1 <= |candles| {
      AtrBounds(candles, period, 0.0, 0.0);
    }
  }

  /** `calculate_atr_percentage`: the scaled ATR in percent of the price, and
      0.0 for a non-positive price. */
  function AtrPercentage(atr: real, currentPrice: real, multiplier: real): (pct: real)
    ensures currentPrice <= 0.0 ==> pct == 0.0
    ensures currentPrice > 0.0 ==> pct * currentPrice == atr * multiplier * 100.0
    ensures atr >= 0.0 && multiplier >= 0.0 ==> pct >= 0.0
  {
    if currentPrice <= 0.0 then 0.0
    else (atr * multiplier / currentPrice) * 100.0
  }

  /** A larger ATR never gives a smaller percentage. */
  lemma AtrPercentageMonotone(atr1: real, atr2: real, currentPrice: real, multiplier: real)
    requires atr1 <= atr2 && multiplier >= 0.0
    ensures AtrPercentage(atr1, currentPrice, multiplier) <= AtrPercentage(atr2, currentPrice, multiplier)
  {
  }

  /** Every price of a candle moved by `d`; the volume is not a price. */
  function ShiftCandle(c: Candle, d: real): Candle {
    c.(open := c.open + d, high := c.high + d, low := c.low + d, close := c.close + d)
  }

  function ShiftCandles(candles: seq<Candle>, d: real): seq<Candle> {
    seq(|candles|, i requires 0 <= i < |candles| => ShiftCandle(candles[i], d))
  }

  lemma TrueRangeShift(high: real, low: real, prevClose: real, d: real)
    ensures TrueRange(high + d, low + d, prevClose + d) == TrueRange(high, low, prevClose)
  {
  }

  /** The ATR measures spans, not levels: moving every price by the same amount
      leaves it unchanged. */
  lemma AtrShiftInvariant(candles: seq<Candle>, period: int, d: real)
    requires period >= 1
    ensures Atr(ShiftCandles(candles, d), period) == Atr(candles, period)
  {
    if period + 1 <= |candles| {
      var shifted := ShiftCandles(candles, d);
      forall j | 0 <= j < period
        ensures Window(shifted, period)[j] == Window(candles, period)[j]
      {
        var i := |candles| - period + j;
        assert shifted[i] == ShiftCandle(candles[i], d) && shifted[i - 1] == ShiftCandle(candles[i - 1], d);
        TrueRangeShift(candles[i].high, candles[i].low, candles[i - 1].close, d);
      }
      assert Window(shifted, period) == Window(candles, period);
    }
  }

  /** The percentage is unit-free: scaling both the ATR and the price by k > 0
      leaves it unchanged. */
  lemma AtrPercentageScaleInvariant(atr: real, currentPrice: real, multiplier: real, k: real)
    requires k > 0.0
    ensures AtrPercentage(k * atr, k * currentPrice, multiplier) == AtrPercentage(atr, currentPrice, multiplier)
  {
  }
}
