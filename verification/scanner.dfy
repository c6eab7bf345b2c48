/** The scan engine: per-symbol evaluation and the loop over the active symbols. */
module Scanner {
  import opened Wrappers
  import opened Sequences
  import opened Indicator

  /** One qualifying instrument of a scan run. */
  datatype ScanResult = ScanResult(
    symbol: string,
    currentPrice: real,
    atrValue: real,
    atrPercentage: real,
    atrPeriod: int,
    atrMultiplier: real)

  /** The symbols of a result list, in list order. */
  function Symbols(results: seq<ScanResult>): seq<string> {
    seq(|results|, i requires 0 <= i < |results| => results[i].symbol)
  }

  /** The loop body for one symbol whose candles were fetched: nothing when the
      history is shorter than period + 1 or the ATR percentage (of the last
      close) is below the threshold. */
  function Evaluate(symbol: string, candles: seq<Candle>, minAtrPercentage: real, period: int, multiplier: real)
    : (r: Option<ScanResult>)
    requires period >= 1
    ensures r.Some? ==> |candles| >= period + 1
    ensures r.Some? ==> r.value.symbol == symbol && r.value.atrPercentage >= minAtrPercentage
    ensures r.Some? ==> r.value.atrPeriod == period && r.value.atrMultiplier == multiplier
    ensures r.Some? ==> r.value.currentPrice == candles[|candles| - 1].close
                        && r.value.atrValue == Atr(candles, period)
                        && r.value.atrPercentage == AtrPercentage(r.value.atrValue, r.value.currentPrice, multiplier)
    ensures |candles| >= period + 1 ==>
      (r.Some? <==> AtrPercentage(Atr(candles, period), candles[|candles| - 1].close, multiplier) >= minAtrPercentage)
  {
    if |candles| < period + 1 then None
    else
      var atr := Atr(candles, period);
      var price := candles[|candles| - 1].close;
      var pct := AtrPercentage(atr, price, multiplier);
      if pct >= minAtrPercentage then Some(ScanResult(symbol, price, atr, pct, period, multiplier))
      else None
  }

  /** The loop body for one symbol: a symbol whose candles could not be fetched
      (absent from `klines`) is skipped. */
  function Outcome(symbol: string, klines: map<string, seq<Candle>>, minAtrPercentage: real, period: int, multiplier: real)
    : (r: Option<ScanResult>)
    requires period >= 1
    ensures r.Some? ==> symbol in klines && |klines[symbol]| >= period + 1
    ensures r.Some? ==> r.value.symbol == symbol
  {
    if symbol in klines then Evaluate(symbol, klines[symbol], minAtrPercentage, period, multiplier) else None
  }

  /** `scan_symbols`: the outcomes of all symbols that produced a result, in symbol order. */
  function ScanSymbols(symbols: seq<string>, klines: map<string, seq<Candle>>, minAtrPercentage: real, period: int, multiplier: real)
    : (results: seq<ScanResult>)
    requires period >= 1
    ensures forall i :: 0 <= i < |results| ==>
      && results[i].atrPercentage >= minAtrPercentage
      && results[i].atrPeriod == period
      && results[i].atrMultiplier == multiplier
    ensures forall i :: 0 <= i < |results| ==>
      Outcome(results[i].symbol, klines, minAtrPercentage, period, multiplier) == Some(results[i])
    ensures Subsequence(Symbols(results), symbols)
    ensures forall s :: s in symbols ==>
      (s in Symbols(results) <==> Outcome(s, klines, minAtrPercentage, period, multiplier).Some?)
  {
    if |symbols| == 0 then []
    else
      var rest := ScanSymbols(symbols[1..], klines, minAtrPercentage, period, multiplier);
      match Outcome(symbols[0], klines, minAtrPercentage, period, multiplier)
      case Some(x) =>
        assert Symbols([x] + rest) == [x.symbol] + Symbols(rest);
        [x] + rest
      case None =>
        rest
  }

  /** A series whose price never moves has ATR 0, so it is never selected
      under a positive threshold. */
  lemma FlatSeriesNeverSelected(symbol: string, candles: seq<Candle>, minAtrPercentage: real, period: int,
                                multiplier: real, price: real)
    requires period >= 1 && minAtrPercentage > 0.0
    requires forall i :: 0 <= i < |candles| ==>
      candles[i].high == price && candles[i].low == price && candles[i].close == price
    ensures Evaluate(symbol, candles, minAtrPercentage, period, multiplier) == None
  {
    AtrFlatSeries(candles, period, price);
  }

  /** One symbol yields its own outcome, if any. */
  lemma ScanSymbolsSingle(symbol: string, klines: map<string, seq<Candle>>, minAtrPercentage: real, period: int,
                          multiplier: real)
    requires period >= 1
    ensures var o := Outcome(symbol, klines, minAtrPercentage, period, multiplier);
      ScanSymbols([symbol], klines, minAtrPercentage, period, multiplier) == if o.Some? then [o.value] else []
  {
    assert [symbol][1..] == [];
  }

  /** The loop treats each symbol on its own: scanning a concatenation
      concatenates the scans, so a repeated symbol is emitted each time it
      qualifies, in input order. */
  lemma {:induction false} ScanSymbolsAppend(a: seq<string>, b: seq<string>, klines: map<string, seq<Candle>>,
                                             minAtrPercentage: real, period: int, multiplier: real)
    requires period >= 1
    ensures ScanSymbols(a + b, klines, minAtrPercentage, period, multiplier)
         == ScanSymbols(a, klines, minAtrPercentage, period, multiplier)
          + ScanSymbols(b, klines, minAtrPercentage, period, multiplier)
  {
    if |a| == 0 {
      assert a + b == b;
    } else {
      assert (a + b)[0] == a[0];
      assert (a + b)[1..] == a[1..] + b;
      ScanSymbolsAppend(a[1..], b, klines, minAtrPercentage, period, multiplier);
    }
  }
}
