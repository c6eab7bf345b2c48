/** `GET /api/export-symbols`: the current results as a comma-separated list
    of `BINANCE:<symbol>.P` entries, plus their count. */
module Export {
  import opened Wrappers
  import opened Strings
  import opened Scanner
  import opened Ranking
  import opened Store

  const Prefix: string := "BINANCE:"
  const Suffix: string := ".P"
  const Separator: char := ','

  function Entry(symbol: string): string {
    Prefix + symbol + Suffix
  }

  /** Reads a symbol back out of one entry. */
  function ParseEntry(entry: string): Option<string> {
    if |entry| >= |Prefix| + |Suffix|
       && entry[..|Prefix|] == Prefix
       && entry[|entry| - |Suffix|..] == Suffix
    then Some(entry[|Prefix|..|entry| - |Suffix|])
    else None
  }

  lemma ParseEntryRoundTrip(symbol: string)
    ensures ParseEntry(Entry(symbol)) == Some(symbol)
  {
  }

  /** The entries of a result list, in list order. */
  function Entries(results: seq<ScanResult>): (entries: seq<string>)
    ensures |entries| == |results|
    ensures forall i :: 0 <= i < |results| ==> entries[i] == Entry(results[i].symbol)
  {
    if |results| == 0 then [] else [Entry(results[0].symbol)] + Entries(results[1..])
  }

  datatype ExportResponse = ExportResponse(symbols: string, count: nat)

  /** Empty results give `("", 0)`; otherwise the results are sorted again by
      percentage, highest first, and their entries joined with commas. */
  function ExportSymbols(s: ScanState): (r: ExportResponse)
    ensures |s.results| == 0 ==> r == ExportResponse("", 0)
    ensures r.count == |s.results|
    ensures |s.results| > 0 ==> |r.symbols| > 0
  {
    if |s.results| == 0 then ExportResponse("", 0)
    else
      var entries := Entries(SortDesc(s.results));
      ExportResponse(Join(entries, Separator), |entries|)
  }

  /** Reads the symbols back out of a list of entries; `None` if one is malformed. */
  function ParseEntries(entries: seq<string>): Option<seq<string>> {
    if |entries| == 0 then Some([])
    else
      match (ParseEntry(entries[0]), ParseEntries(entries[1..]))
      case (Some(symbol), Some(rest)) => Some([symbol] + rest)
      case _ => None
  }

  /** Reads the symbols back out of an export string. */
  function ParseExport(text: string): Option<seq<string>> {
    if |text| == 0 then Some([]) else ParseEntries(Split(text, Separator))
  }

  lemma {:induction false} ParseEntriesRoundTrip(results: seq<ScanResult>)
    ensures ParseEntries(Entries(results)) == Some(Symbols(results))
  {
    if |results| > 0 {
      ParseEntryRoundTrip(results[0].symbol);
      ParseEntriesRoundTrip(results[1..]);
      assert Entries(results)[1..] == Entries(results[1..]);
      assert Symbols(results) == [results[0].symbol] + Symbols(results[1..]);
    } else {
      assert Symbols(results) == [];
    }
  }

  /** The export string lists exactly the symbols of the current results, in
      descending-percentage order, provided no symbol contains a comma. */
  lemma ExportRoundTrip(s: ScanState)
    requires forall x :: x in s.results ==> Separator !in x.symbol
    ensures ParseExport(ExportSymbols(s).symbols) == Some(Symbols(SortDesc(s.results)))
  {
    if |s.results| > 0 {
      var sorted := SortDesc(s.results);
      var entries := Entries(sorted);
      forall k | 0 <= k < |entries|
        ensures Separator !in entries[k]
      {
        assert sorted[k] in multiset(s.results);
        assert entries[k] == Prefix + sorted[k].symbol + Suffix;
      }
      SplitJoin(entries, Separator);
      ParseEntriesRoundTrip(sorted);
    } else {
      assert Symbols(SortDesc(s.results)) == [];
    }
  }

  /** The results a scan publishes are already sorted, so the export lists
      them in exactly the published order. */
  lemma ExportOfConsistent(s: ScanState)
    requires Consistent(s)
    requires forall x :: x in s.results ==> Separator !in x.symbol
    ensures ParseExport(ExportSymbols(s).symbols) == Some(Symbols(s.results))
  {
    ExportRoundTrip(s);
    SortDescOfSorted(s.results);
  }

  /** The export count equals the `total_symbols` of the scan-data endpoint. */
  lemma ExportCountIsTotal(s: ScanState)
    ensures ExportSymbols(s).count == GetScanData(s).totalSymbols
  {
  }
}
