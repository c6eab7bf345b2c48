/** The result store and the scan scheduler: the process-wide scan state and
    the transitions the periodic loop and the HTTP endpoints apply to it. */
module Store {
  import opened Wrappers
  import opened Instruments
  import opened Indicator
  import opened Scanner
  import opened Ranking
  import opened Sequences

  datatype Settings = Settings(minAtrPercentage: real, atrPeriod: int, atrMultiplier: real, interval: string)

  const DefaultSettings: Settings := Settings(0.5, 50, 0.5, "1m")

  /** An abstract clock reading (the source stores `datetime.now()`). */
  type Timestamp = int

  datatype ScanState = ScanState(
    results: seq<ScanResult>,
    lastUpdate: Option<Timestamp>,
    scanning: bool,
    settings: Settings)

  const InitialState: ScanState := ScanState([], None, false, DefaultSettings)

  /** What the exchange answers during one scan run: the exchange-information
      listing (`None` when that call fails) and the candles fetched per symbol
      with limit period + 50 at the configured interval (a symbol is absent
      when its fetch failed). */
  datatype Market = Market(exchangeInfo: Option<seq<SymbolInfo>>, klines: map<string, seq<Candle>>)

  /** One run of the scan engine under a settings snapshot. */
  function RunEngine(snapshot: Settings, market: Market): (results: seq<ScanResult>)
    requires snapshot.atrPeriod >= 1
    ensures forall i :: 0 <= i < |results| ==>
      && results[i].atrPercentage >= snapshot.minAtrPercentage
      && results[i].atrPeriod == snapshot.atrPeriod
      && results[i].atrMultiplier == snapshot.atrMultiplier
    ensures forall i :: 0 <= i < |results| ==>
      Outcome(results[i].symbol, market.klines, snapshot.minAtrPercentage, snapshot.atrPeriod, snapshot.atrMultiplier)
        == Some(results[i])
    ensures Subsequence(Symbols(results), GetActiveSymbols(market.exchangeInfo))
    ensures forall s :: s in GetActiveSymbols(market.exchangeInfo) ==>
      (s in Symbols(results) <==>
       Outcome(s, market.klines, snapshot.minAtrPercentage, snapshot.atrPeriod, snapshot.atrMultiplier).Some?)
    ensures |results| <= |GetActiveSymbols(market.exchangeInfo)|
  {
    var active := GetActiveSymbols(market.exchangeInfo);
    var results := ScanSymbols(active, market.klines,
                               snapshot.minAtrPercentage, snapshot.atrPeriod, snapshot.atrMultiplier);
    SubsequenceMembers(Symbols(results), active);
    results
  }

  /** Start of `perform_scan`: the flag goes up; the caller keeps the settings
      it read as the run's snapshot. */
  function BeginScan(s: ScanState): ScanState {
    s.(scanning := true)
  }

  /** End of `perform_scan`. On success the engine's output, sorted highest
      percentage first, replaces the results and the timestamp is set; when the
      run raised (`crashed`) both are left as they were. Either way the flag
      comes down and the settings are not touched. */
  function FinishScan(s: ScanState, snapshot: Settings, market: Market, crashed: bool, now: Timestamp)
    : (r: ScanState)
    requires snapshot.atrPeriod >= 1
    ensures !r.scanning && r.settings == s.settings
    ensures crashed ==> r.results == s.results && r.lastUpdate == s.lastUpdate
    ensures !crashed ==> r.lastUpdate == Some(now)
    ensures !crashed ==> SortedDesc(r.results) && multiset(r.results) == multiset(RunEngine(snapshot, market))
  {
    if crashed then s.(scanning := false)
    else s.(results := SortDesc(RunEngine(snapshot, market)), lastUpdate := Some(now), scanning := false)
  }

  /** `perform_scan` run to completion, with the settings read at its start. */
  function PerformScan(s: ScanState, market: Market, crashed: bool, now: Timestamp): (r: ScanState)
    requires s.settings.atrPeriod >= 1
    ensures !r.scanning && r.settings == s.settings
    ensures crashed ==> r.results == s.results && r.lastUpdate == s.lastUpdate
    ensures !crashed ==> r.lastUpdate == Some(now)
    ensures !crashed ==> SortedDesc(r.results) && multiset(r.results) == multiset(RunEngine(s.settings, market))
    ensures !crashed ==> forall i :: 0 <= i < |r.results| ==>
      && r.results[i].atrPercentage >= s.settings.minAtrPercentage
      && r.results[i].atrPeriod == s.settings.atrPeriod
      && r.results[i].atrMultiplier == s.settings.atrMultiplier
  {
    var r := FinishScan(BeginScan(s), s.settings, market, crashed, now);
    assert !crashed ==> forall i :: 0 <= i < |r.results| ==> r.results[i] in multiset(RunEngine(s.settings, market));
    r
  }

  /** Results with equal percentages are published in the order the engine
      produced them. */
  lemma PerformScanStable(s: ScanState, market: Market, now: Timestamp, key: real)
    requires s.settings.atrPeriod >= 1
    ensures WithKey(PerformScan(s, market, false, now).results, key) == WithKey(RunEngine(s.settings, market), key)
  {
    SortDescStable(RunEngine(s.settings, market), key);
  }

  datatype ForceStatus = ScanStarted | ScanAlreadyRunning

  /** `force_scan`: starts a scan only when none is flagged as running. The
      started scan is modelled as running to completion before the next
      request is handled. */
  function ForceScan(s: ScanState, market: Market, crashed: bool, now: Timestamp): (r: (ForceStatus, ScanState))
    requires s.scanning || s.settings.atrPeriod >= 1
    ensures r.0 == ScanAlreadyRunning <==> s.scanning
    ensures s.scanning ==> r.1 == s
    ensures !s.scanning ==> r.1 == PerformScan(s, market, crashed, now)
  {
    if !s.scanning then (ScanStarted, PerformScan(s, market, crashed, now))
    else (ScanAlreadyRunning, s)
  }

  /** A request observed between the start and the end of a scan is turned
      away and leaves the in-flight state alone. */
  lemma ForceScanDuringScan(s: ScanState, market: Market, crashed: bool, now: Timestamp)
    ensures ForceScan(BeginScan(s), market, crashed, now) == (ScanAlreadyRunning, BeginScan(s))
  {
  }

  /** The fields of an update-settings request body; absent keys are `None`. */
  datatype SettingsRequest = SettingsRequest(
    minAtrPercentage: Option<real>,
    atrPeriod: Option<int>,
    atrMultiplier: Option<real>,
    interval: Option<string>)

  /** Each present key overwrites its setting; every other setting keeps its value. */
  function MergeSettings(prior: Settings, req: SettingsRequest): (r: Settings)
    ensures req.minAtrPercentage.Some? ==> r.minAtrPercentage == req.minAtrPercentage.value
    ensures req.minAtrPercentage.None? ==> r.minAtrPercentage == prior.minAtrPercentage
    ensures req.atrPeriod.Some? ==> r.atrPeriod == req.atrPeriod.value
    ensures req.atrPeriod.None? ==> r.atrPeriod == prior.atrPeriod
    ensures req.atrMultiplier.Some? ==> r.atrMultiplier == req.atrMultiplier.value
    ensures req.atrMultiplier.None? ==> r.atrMultiplier == prior.atrMultiplier
    ensures req.interval.Some? ==> r.interval == req.interval.value
    ensures req.interval.None? ==> r.interval == prior.interval
  {
    Settings(
      req.minAtrPercentage.GetOr(prior.minAtrPercentage),
      req.atrPeriod.GetOr(prior.atrPeriod),
      req.atrMultiplier.GetOr(prior.atrMultiplier),
      req.interval.GetOr(prior.interval))
  }

  /** A request whose keys are those of `b`, and of `a` where `b` has none. */
  function Override(a: SettingsRequest, b: SettingsRequest): SettingsRequest {
    SettingsRequest(
      if b.minAtrPercentage.Some? then b.minAtrPercentage else a.minAtrPercentage,
      if b.atrPeriod.Some? then b.atrPeriod else a.atrPeriod,
      if b.atrMultiplier.Some? then b.atrMultiplier else a.atrMultiplier,
      if b.interval.Some? then b.interval else a.interval)
  }

  /** Two updates in a row act as one update with the later request's keys winning. */
  lemma MergeSettingsCompose(prior: Settings, a: SettingsRequest, b: SettingsRequest)
    ensures MergeSettings(MergeSettings(prior, a), b) == MergeSettings(prior, Override(a, b))
  {
  }

  /** Repeating an update changes nothing further; an empty request changes nothing. */
  lemma MergeSettingsIdempotent(prior: Settings, req: SettingsRequest)
    ensures MergeSettings(MergeSettings(prior, req), req) == MergeSettings(prior, req)
    ensures MergeSettings(prior, SettingsRequest(None, None, None, None)) == prior
  {
  }

  /** `update_settings`: answers with the merged settings; results, timestamp
      and flag are untouched. */
  function UpdateSettings(s: ScanState, req: SettingsRequest): (r: (Settings, ScanState))
    ensures r.1.settings == r.0 && r.0 == MergeSettings(s.settings, req)
    ensures r.1.results == s.results && r.1.lastUpdate == s.lastUpdate && r.1.scanning == s.scanning
  {
    var merged := MergeSettings(s.settings, req);
    (merged, s.(settings := merged))
  }

  /** A settings update that lands while a scan is in flight takes effect for
      later scans only: the running scan publishes what its snapshot selects,
      and publishing does not undo the update. */
  lemma UpdateDuringScan(s: ScanState, req: SettingsRequest, market: Market, now: Timestamp)
    requires s.settings.atrPeriod >= 1
    ensures var mid := UpdateSettings(BeginScan(s), req).1;
      var r := FinishScan(mid, s.settings, market, false, now);
      r.settings == MergeSettings(s.settings, req)
      && multiset(r.results) == multiset(RunEngine(s.settings, market))
  {
  }

  /** The body of `GET /api/scan-data`. */
  datatype ScanData = ScanData(
    results: seq<ScanResult>,
    lastUpdate: Option<Timestamp>,
    scanning: bool,
    totalSymbols: nat,
    settings: Settings)

  function GetScanData(s: ScanState): (r: ScanData)
    ensures r.totalSymbols == |r.results|
    ensures r.results == s.results && r.lastUpdate == s.lastUpdate
    ensures r.scanning == s.scanning && r.settings == s.settings
  {
    ScanData(s.results, s.lastUpdate, s.scanning, |s.results|, s.settings)
  }

  /** What an observer may see: results always in descending order, and no
      results before the first completed scan. */
  predicate Consistent(s: ScanState) {
    SortedDesc(s.results) && (s.lastUpdate.None? ==> s.results == [])
  }

  predicate PeriodAllowed(req: SettingsRequest) {
    req.atrPeriod.None? || req.atrPeriod.value >= 1
  }

  /** The inputs that drive the store: the hourly timer, the force-scan endpoint
      and the update-settings endpoint. */
  datatype Event =
    | PeriodicScan(market: Market, crashed: bool, now: Timestamp)
    | ManualScan(market: Market, crashed: bool, now: Timestamp)
    | ChangeSettings(request: SettingsRequest)

  predicate Allowed(e: Event) {
    e.ChangeSettings? ==> PeriodAllowed(e.request)
  }

  function Apply(s: ScanState, e: Event): (r: ScanState)
    requires s.settings.atrPeriod >= 1 && Allowed(e)
    ensures r.settings.atrPeriod >= 1
    ensures !s.scanning ==> !r.scanning
  {
    match e
    case PeriodicScan(market, crashed, now) => PerformScan(s, market, crashed, now)
    case ManualScan(market, crashed, now) => ForceScan(s, market, crashed, now).1
    case ChangeSettings(req) => UpdateSettings(s, req).1
  }

  /** The events applied one after another. */
  function Run(s: ScanState, events: seq<Event>): (r: ScanState)
    requires s.settings.atrPeriod >= 1
    requires forall k :: 0 <= k < |events| ==> Allowed(events[k])
    ensures r.settings.atrPeriod >= 1
    decreases |events|
  {
    if |events| == 0 then s
    else Run(Apply(s, events[0]), events[1..])
  }

  /** Every event keeps the store consistent. */
  lemma ApplyConsistent(s: ScanState, e: Event)
    requires s.settings.atrPeriod >= 1 && Allowed(e) && Consistent(s)
    ensures Consistent(Apply(s, e))
  {
  }

  /** From the initial state, any sequence of timer ticks, forced scans and
      settings updates leaves the store consistent and not flagged as scanning. */
  lemma {:induction false} RunConsistent(s: ScanState, events: seq<Event>)
    requires s.settings.atrPeriod >= 1
    requires forall k :: 0 <= k < |events| ==> Allowed(events[k])
    requires Consistent(s)
    ensures Consistent(Run(s, events))
    ensures !s.scanning ==> !Run(s, events).scanning
    decreases |events|
  {
    if |events| > 0 {
      ApplyConsistent(s, events[0]);
      RunConsistent(Apply(s, events[0]), events[1..]);
    }
  }

  lemma InitialConsistent()
    ensures InitialState.results == [] && InitialState.lastUpdate == None && !InitialState.scanning
    ensures InitialState.settings == Settings(0.5, 50, 0.5, "1m")
    ensures Consistent(InitialState)
  {
  }

  /** Raising only the period from 50 to 30 leaves every other setting as it was. */
  lemma UpdatePeriodExample()
    ensures UpdateSettings(InitialState, SettingsRequest(None, Some(30), None, None)).0
         == Settings(0.5, 30, 0.5, "1m")
  {
  }

  /** Two active symbols at 0.8 % and 0.3 % against a 0.5 % threshold: only the
      first is published, and the scan data reports one symbol. */
  lemma TwoSymbolScanExample()
    ensures
      var aaa := [Candle(0, 100.0, 100.0, 100.0, 100.0, 0.0), Candle(1, 100.0, 100.8, 100.0, 100.0, 0.0)];
      var bbb := [Candle(0, 100.0, 100.0, 100.0, 100.0, 0.0), Candle(1, 100.0, 100.3, 100.0, 100.0, 0.0)];
      var market := Market(
        Some([SymbolInfo("AAAUSDT", "PERPETUAL", "TRADING"), SymbolInfo("BBBUSDT", "PERPETUAL", "TRADING")]),
        map["AAAUSDT" := aaa, "BBBUSDT" := bbb]);
      var s := InitialState.(settings := Settings(0.5, 1, 1.0, "1m"));
      var r := PerformScan(s, market, false, 1);
      r.results == [ScanResult("AAAUSDT", 100.0, 0.8, 0.8, 1, 1.0)] && GetScanData(r).totalSymbols == 1
  {
    var aaa := [Candle(0, 100.0, 100.0, 100.0, 100.0, 0.0), Candle(1, 100.0, 100.8, 100.0, 100.0, 0.0)];
    var bbb := [Candle(0, 100.0, 100.0, 100.0, 100.0, 0.0), Candle(1, 100.0, 100.3, 100.0, 100.0, 0.0)];
    assert Window(aaa, 1) == [0.8];
    assert Window(bbb, 1) == [0.3];
    assert Atr(aaa, 1) == 0.8;
    assert Atr(bbb, 1) == 0.3;
    var infos := [SymbolInfo("AAAUSDT", "PERPETUAL", "TRADING"), SymbolInfo("BBBUSDT", "PERPETUAL", "TRADING")];
    assert "AAAUSDT"[3..] == "USDT" && "BBBUSDT"[3..] == "USDT";
    assert ActiveSymbols(infos) == ["AAAUSDT", "BBBUSDT"];
    var klines := map["AAAUSDT" := aaa, "BBBUSDT" := bbb];
    var x := ScanResult("AAAUSDT", 100.0, 0.8, 0.8, 1, 1.0);
    assert Outcome("AAAUSDT", klines, 0.5, 1, 1.0) == Some(x);
    assert Outcome("BBBUSDT", klines, 0.5, 1, 1.0) == None;
    assert ScanSymbols(["BBBUSDT"], klines, 0.5, 1, 1.0) == [];
    assert ScanSymbols(["AAAUSDT", "BBBUSDT"], klines, 0.5, 1, 1.0) == [x];
  }
}
