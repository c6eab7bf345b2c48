/** The instrument filter: which exchange symbols are scan candidates. */
module Instruments {
  import opened Wrappers
  import opened Sequences
  import opened Strings

  /** One entry of the exchange-information listing. */
  datatype SymbolInfo = SymbolInfo(symbol: string, contractType: string, status: string)

  const QuoteAsset: string := "USDT"
  const Perpetual: string := "PERPETUAL"
  const Trading: string := "TRADING"

  /** A USDT-quoted perpetual contract that is trading now. */
  predicate IsActive(info: SymbolInfo) {
    EndsWith(info.symbol, QuoteAsset) && info.contractType == Perpetual && info.status == Trading
  }

  /** The symbol names of a listing, in listing order. */
  function Names(infos: seq<SymbolInfo>): (names: seq<string>)
    ensures |names| == |infos|
    ensures forall i :: 0 <= i < |infos| ==> names[i] == infos[i].symbol
  {
    if |infos| == 0 then [] else [infos[0].symbol] + Names(infos[1..])
  }

  /** The loop over the listing: keeps the active entries' symbols in listing order. */
  function ActiveSymbols(infos: seq<SymbolInfo>): (symbols: seq<string>)
    ensures Subsequence(symbols, Names(infos))
    ensures forall s :: s in symbols ==> EndsWith(s, QuoteAsset)
    ensures forall i :: 0 <= i < |infos| && IsActive(infos[i]) ==> infos[i].symbol in symbols
  {
    if |infos| == 0 then []
    else
      var rest := ActiveSymbols(infos[1..]);
      assert Names(infos)[1..] == Names(infos[1..]);
      assert forall i :: 1 <= i < |infos| ==> infos[i] == infos[1..][i - 1];
      if IsActive(infos[0]) then [infos[0].symbol] + rest else rest
  }

  /** Every returned symbol belongs to some active entry of the listing. */
  lemma {:induction false} ActiveSymbolsSound(infos: seq<SymbolInfo>, s: string)
    requires s in ActiveSymbols(infos)
    ensures exists i :: 0 <= i < |infos| && infos[i].symbol == s && IsActive(infos[i])
  {
    if |infos| > 0 {
      if IsActive(infos[0]) && s == infos[0].symbol {
        assert infos[0].symbol == s && IsActive(infos[0]);
      } else {
        ActiveSymbolsSound(infos[1..], s);
        var i :| 0 <= i < |infos[1..]| && infos[1..][i].symbol == s && IsActive(infos[1..][i]);
        assert infos[i + 1] == infos[1..][i];
      }
    }
  }

  /** A listing that is entirely active is returned whole; one with no active
      entry yields nothing. */
  lemma {:induction false} ActiveSymbolsExtremes(infos: seq<SymbolInfo>)
    ensures (forall i :: 0 <= i < |infos| ==> IsActive(infos[i])) ==> ActiveSymbols(infos) == Names(infos)
    ensures (forall i :: 0 <= i < |infos| ==> !IsActive(infos[i])) ==> ActiveSymbols(infos) == []
  {
    if |infos| > 0 {
      ActiveSymbolsExtremes(infos[1..]);
      assert forall i :: 1 <= i < |infos| ==> infos[i] == infos[1..][i - 1];
    }
  }

  /** One entry is kept exactly when it is active. */
  lemma ActiveSymbolsSingle(info: SymbolInfo)
    ensures ActiveSymbols([info]) == if IsActive(info) then [info.symbol] else []
  {
    assert [info][1..] == [];
  }

  /** The filter works entry by entry: filtering a concatenation concatenates
      the filtered parts, so order and repeated entries are kept as listed. */
  lemma {:induction false} ActiveSymbolsAppend(a: seq<SymbolInfo>, b: seq<SymbolInfo>)
    ensures ActiveSymbols(a + b) == ActiveSymbols(a) + ActiveSymbols(b)
  {
    if |a| == 0 {
      assert a + b == b;
    } else {
      assert (a + b)[0] == a[0];
      assert (a + b)[1..] == a[1..] + b;
      ActiveSymbolsAppend(a[1..], b);
    }
  }

  /** `get_active_symbols`: a failed exchange-information call (`None`) yields
      the empty list. */
  function GetActiveSymbols(exchangeInfo: Option<seq<SymbolInfo>>): (symbols: seq<string>)
    ensures exchangeInfo.None? ==> symbols == []
    ensures exchangeInfo.Some? ==> symbols == ActiveSymbols(exchangeInfo.value)
    ensures exchangeInfo.Some? ==> Subsequence(symbols, Names(exchangeInfo.value))
    ensures exchangeInfo.Some? ==> forall i :: 0 <= i < |exchangeInfo.value| && IsActive(exchangeInfo.value[i]) ==>
      exchangeInfo.value[i].symbol in symbols
    ensures forall s :: s in symbols ==> EndsWith(s, QuoteAsset)
  {
    match exchangeInfo
    case None => []
    case Some(infos) => ActiveSymbols(infos)
  }
}
