/** The all-time high / all-time low scanner: among the top 20 gainers and top 20
    losers of the day, the pairs whose price is within a proximity threshold of the
    highest high or the lowest low of their daily history. Each kind of alert has its
    own rolling cooldown store. */
module AthAtl {
  import opened Market
  import opened Cooldown
  import opened Universe

  /** The exchange returns at most this many candles per request. */
  const MaxHistoryCandles: int := 1000
  /** A history shorter than this is not analysed. */
  const MinHistoryCandles: int := 30

  datatype Config = Config(
    enabled: bool,
    athEnabled: bool,
    atlEnabled: bool,
    proximityThreshold: real,   // in percent
    lookbackDays: int,
    minVolume24h: real,
    maxCoinsPerAlert: int,
    cooldownHours: int)

  // ---------------------------------------------------------------------------
  // History and extremes

  /** The number of daily candles requested: the lookback, capped at the exchange maximum. */
  function HistoryLimit(days: int): (limit: int)
    ensures limit <= days && limit <= MaxHistoryCandles
    ensures limit == days || limit == MaxHistoryCandles
  {
    if days < MaxHistoryCandles then days else MaxHistoryCandles
  }

  /** `fetch(symbol, limit)` is the exchange's answer to a daily-candle request (None
      when the request fails); a history shorter than 30 candles counts as a failure. */
  function FetchHistoricalData(fetch: (string, int) -> Option<seq<Kline>>, symbol: string, days: int)
    : (r: Option<seq<Kline>>)
    ensures r.Some? <==>
      (fetch(symbol, HistoryLimit(days)).Some? && |fetch(symbol, HistoryLimit(days)).value| >= MinHistoryCandles)
    ensures r.Some? ==> r.value == fetch(symbol, HistoryLimit(days)).value
  {
    match fetch(symbol, HistoryLimit(days))
    case None => None
    case Some(ks) => if |ks| < MinHistoryCandles then None else Some(ks)
  }

  /** The highest high of a non-empty series. */
  function MaxHigh(ks: seq<Kline>): (m: real)
    requires |ks| > 0
    ensures forall i :: 0 <= i < |ks| ==> ks[i].high <= m
    ensures exists i :: 0 <= i < |ks| && ks[i].high == m
  {
    if |ks| == 1 then ks[0].high
    else
      var m := MaxHigh(ks[..|ks| - 1]);
      if ks[|ks| - 1].high > m then ks[|ks| - 1].high else m
  }

  /** The lowest low of a non-empty series. */
  function MinLow(ks: seq<Kline>): (m: real)
    requires |ks| > 0
    ensures forall i :: 0 <= i < |ks| ==> m <= ks[i].low
    ensures exists i :: 0 <= i < |ks| && ks[i].low == m
  {
    if |ks| == 1 then ks[0].low
    else
      var m := MinLow(ks[..|ks| - 1]);
      if ks[|ks| - 1].low < m then ks[|ks| - 1].low else m
  }

  /** ATH and ATL of a history, and the current price's distance from each in percent
      of that extreme (positive below the ATH, positive above the ATL). */
  datatype Extremes = Extremes(ath: real, atl: real, athDistancePct: real, atlDistancePct: real)

  /** None where the computation raises: an empty history (no maximum) or an extreme
      of zero (division by zero). */
  function CalculateAthAtl(klines: seq<Kline>, currentPrice: real): (r: Option<Extremes>)
    ensures r.Some? <==> |klines| > 0 && MaxHigh(klines) != 0.0 && MinLow(klines) != 0.0
    ensures r.Some? ==>
      (forall i :: 0 <= i < |klines| ==> r.value.atl <= klines[i].low && klines[i].high <= r.value.ath)
      && (exists i :: 0 <= i < |klines| && klines[i].high == r.value.ath)
      && (exists i :: 0 <= i < |klines| && klines[i].low == r.value.atl)
      && r.value.athDistancePct * r.value.ath == (r.value.ath - currentPrice) * 100.0
      && r.value.atlDistancePct * r.value.atl == (currentPrice - r.value.atl) * 100.0
  {
    if |klines| == 0 then None
    else
      var ath := MaxHigh(klines);
      var atl := MinLow(klines);
      if ath == 0.0 || atl == 0.0 then None
      else Some(Extremes(ath, atl, (ath - currentPrice) / ath * 100.0, (currentPrice - atl) / atl * 100.0))
  }

  /** A price at or above a positive ATH is at distance zero or less, so it passes the
      ATH proximity test for every non-negative threshold. */
  lemma NewAthIsWithinThreshold(klines: seq<Kline>, currentPrice: real, threshold: real)
    requires CalculateAthAtl(klines, currentPrice).Some?
    requires CalculateAthAtl(klines, currentPrice).value.ath > 0.0
    requires currentPrice >= CalculateAthAtl(klines, currentPrice).value.ath && threshold >= 0.0
    ensures CalculateAthAtl(klines, currentPrice).value.athDistancePct <= threshold
  {
    var x := CalculateAthAtl(klines, currentPrice).value;
    if x.athDistancePct > 0.0 {
      assert x.athDistancePct * x.ath > 0.0 * x.ath;
    }
  }

  /** The ATL test as written, `distance >= -threshold`: a price at or above a positive
      ATL has a non-negative distance, so it passes however far above the low it is. */
  lemma AtlTestAdmitsEveryPriceAboveTheLow(klines: seq<Kline>, currentPrice: real, threshold: real)
    requires CalculateAthAtl(klines, currentPrice).Some?
    requires CalculateAthAtl(klines, currentPrice).value.atl > 0.0
    requires currentPrice >= CalculateAthAtl(klines, currentPrice).value.atl && threshold >= 0.0
    ensures CalculateAthAtl(klines, currentPrice).value.atlDistancePct >= -threshold
  {
    var x := CalculateAthAtl(klines, currentPrice).value;
    if x.atlDistancePct < 0.0 {
      assert x.atlDistancePct * x.atl < 0.0 * x.atl;
    }
  }

  // ---------------------------------------------------------------------------
  // Alerts

  datatype AthCoin = AthCoin(symbol: string, price: real, ath: real, distancePct: real, isNewAth: bool, changePct: real)
  datatype AtlCoin = AtlCoin(symbol: string, price: real, atl: real, distancePct: real, isNewAtl: bool, changePct: real)

  /** The dictionary `scan` returns when it gets as far as the ranking. */
  datatype Report = Report(ath: seq<AthCoin>, atl: seq<AtlCoin>)

  function AthSymbol(c: AthCoin): string { c.symbol }
  function AtlSymbol(c: AtlCoin): string { c.symbol }

  /** The extremes of a pair's history, when the history is there and usable. */
  function PairExtremes(cfg: Config, fetch: (string, int) -> Option<seq<Kline>>, pair: Pair): Option<Extremes>
  {
    match FetchHistoricalData(fetch, pair.symbol, cfg.lookbackDays)
    case None => None
    case Some(ks) => CalculateAthAtl(ks, pair.price)
  }

  /** The ATH verdict on one pair. */
  function EvalAth(cfg: Config, alerts: map<string, int>, now: int, pair: Pair, x: Option<Extremes>)
    : (r: Option<AthCoin>)
    ensures r.Some? <==>
      (x.Some? && cfg.athEnabled && x.value.athDistancePct <= cfg.proximityThreshold
       && !RollingSuppressed(alerts, pair.symbol, now, cfg.cooldownHours))
    ensures r.Some? ==>
      (r.value.symbol == pair.symbol && r.value.price == pair.price && r.value.changePct == pair.changePct
       && r.value.ath == x.value.ath && r.value.distancePct == x.value.athDistancePct
       && (r.value.isNewAth <==> pair.price >= x.value.ath))
  {
    match x
    case None => None
    case Some(e) =>
      if cfg.athEnabled && e.athDistancePct <= cfg.proximityThreshold then
        var isNewAth := pair.price >= e.ath;
        if !RollingSuppressed(alerts, pair.symbol, now, cfg.cooldownHours) then
          Some(AthCoin(pair.symbol, pair.price, e.ath, e.athDistancePct, isNewAth, pair.changePct))
        else None
      else None
  }

  /** The ATL verdict on one pair; the reported distance is the absolute value. */
  function EvalAtl(cfg: Config, alerts: map<string, int>, now: int, pair: Pair, x: Option<Extremes>)
    : (r: Option<AtlCoin>)
    ensures r.Some? <==>
      (x.Some? && cfg.atlEnabled && x.value.atlDistancePct >= -cfg.proximityThreshold
       && !RollingSuppressed(alerts, pair.symbol, now, cfg.cooldownHours))
    ensures r.Some? ==>
      (r.value.symbol == pair.symbol && r.value.price == pair.price && r.value.changePct == pair.changePct
       && r.value.atl == x.value.atl && r.value.distancePct >= 0.0
       && (r.value.distancePct == x.value.atlDistancePct || r.value.distancePct == -x.value.atlDistancePct)
       && (r.value.isNewAtl <==> pair.price <= x.value.atl))
  {
    match x
    case None => None
    case Some(e) =>
      if cfg.atlEnabled && e.atlDistancePct >= -cfg.proximityThreshold then
        var isNewAtl := pair.price <= e.atl;
        if !RollingSuppressed(alerts, pair.symbol, now, cfg.cooldownHours) then
          Some(AtlCoin(pair.symbol, pair.price, e.atl, Abs(e.atlDistancePct), isNewAtl, pair.changePct))
        else None
      else None
  }

  /** A pair trading at twice its positive ATL is reported as near its ATL, at a
      distance of 100%, whatever the threshold. */
  lemma AtlReportsPairFarAboveTheLow(cfg: Config, alerts: map<string, int>, now: int, pair: Pair, atl: real, ath: real)
    requires cfg.atlEnabled && cfg.proximityThreshold >= 0.0 && atl > 0.0 && ath > 0.0
    requires !RollingSuppressed(alerts, pair.symbol, now, cfg.cooldownHours)
    requires pair.price == 2.0 * atl
    ensures var x := Extremes(ath, atl, (ath - pair.price) / ath * 100.0, (pair.price - atl) / atl * 100.0);
      EvalAtl(cfg, alerts, now, pair, Some(x)).Some?
      && EvalAtl(cfg, alerts, now, pair, Some(x)).value.distancePct == 100.0
      && !EvalAtl(cfg, alerts, now, pair, Some(x)).value.isNewAtl
  {
    var d := (pair.price - atl) / atl * 100.0;
    assert (pair.price - atl) / atl == 1.0;
    assert d == 100.0;
  }

  function AthVerdicts(cfg: Config, alerts: map<string, int>, now: int,
                       fetch: (string, int) -> Option<seq<Kline>>): Pair -> Option<AthCoin>
  {
    (pair: Pair) => EvalAth(cfg, alerts, now, pair, PairExtremes(cfg, fetch, pair))
  }

  function AtlVerdicts(cfg: Config, alerts: map<string, int>, now: int,
                       fetch: (string, int) -> Option<seq<Kline>>): Pair -> Option<AtlCoin>
  {
    (pair: Pair) => EvalAtl(cfg, alerts, now, pair, PairExtremes(cfg, fetch, pair))
  }

  /** The ATH coins found over the analysed pairs, in analysis order: each passes the ATH
      test out of cooldown, and every ATH coin an analysed pair yields is among them. */
  function AthFound(cfg: Config, alerts: map<string, int>, now: int,
                    fetch: (string, int) -> Option<seq<Kline>>, analysed: seq<Pair>): (r: seq<AthCoin>)
    ensures |r| <= |analysed|
    ensures forall c :: c in r ==>
      cfg.athEnabled && c.distancePct <= cfg.proximityThreshold
      && !RollingSuppressed(alerts, c.symbol, now, cfg.cooldownHours)
      && (c.isNewAth <==> c.price >= c.ath)
      && exists p :: p in analysed && p.symbol == c.symbol && p.price == c.price
    ensures forall p :: p in analysed && AthVerdicts(cfg, alerts, now, fetch)(p).Some? ==>
      AthVerdicts(cfg, alerts, now, fetch)(p).value in r
  {
    var f := AthVerdicts(cfg, alerts, now, fetch);
    var r := Collect(analysed, f);
    forall c | c in r
      ensures cfg.athEnabled && c.distancePct <= cfg.proximityThreshold
        && !RollingSuppressed(alerts, c.symbol, now, cfg.cooldownHours)
        && (c.isNewAth <==> c.price >= c.ath)
        && exists p :: p in analysed && p.symbol == c.symbol && p.price == c.price
    {
      CollectSound(analysed, f, c);
      var p :| p in analysed && f(p) == Some(c);
      assert EvalAth(cfg, alerts, now, p, PairExtremes(cfg, fetch, p)) == Some(c);
    }
    forall p | p in analysed && f(p).Some? ensures f(p).value in r {
      CollectComplete(analysed, f, p);
    }
    r
  }

  /** The ATL coins found over the analysed pairs, in analysis order: each is out of
      cooldown, and every ATL coin an analysed pair yields is among them. */
  function AtlFound(cfg: Config, alerts: map<string, int>, now: int,
                    fetch: (string, int) -> Option<seq<Kline>>, analysed: seq<Pair>): (r: seq<AtlCoin>)
    ensures |r| <= |analysed|
    ensures forall c :: c in r ==>
      cfg.atlEnabled && c.distancePct >= 0.0
      && !RollingSuppressed(alerts, c.symbol, now, cfg.cooldownHours)
      && (c.isNewAtl <==> c.price <= c.atl)
      && exists p :: p in analysed && p.symbol == c.symbol && p.price == c.price
    ensures forall p :: p in analysed && AtlVerdicts(cfg, alerts, now, fetch)(p).Some? ==>
      AtlVerdicts(cfg, alerts, now, fetch)(p).value in r
  {
    var f := AtlVerdicts(cfg, alerts, now, fetch);
    var r := Collect(analysed, f);
    forall c | c in r
      ensures cfg.atlEnabled && c.distancePct >= 0.0
        && !RollingSuppressed(alerts, c.symbol, now, cfg.cooldownHours)
        && (c.isNewAtl <==> c.price <= c.atl)
        && exists p :: p in analysed && p.symbol == c.symbol && p.price == c.price
    {
      CollectSound(analysed, f, c);
      var p :| p in analysed && f(p) == Some(c);
      assert EvalAtl(cfg, alerts, now, p, PairExtremes(cfg, fetch, p)) == Some(c);
    }
    forall p | p in analysed && f(p).Some? ensures f(p).value in r {
      CollectComplete(analysed, f, p);
    }
    r
  }

  /** The pairs analysed for a snapshot: top 20 gainers then top 20 losers of the survivors. */
  function AnalysedPairs(cfg: Config, tickers: seq<Ticker>): (r: seq<Pair>)
    ensures |r| <= 2 * TopN
    ensures forall p :: p in r ==> p in Survivors(tickers, cfg.minVolume24h)
  {
    var survivors := Survivors(tickers, cfg.minVolume24h);
    var ranked := RankByChange(survivors);
    assert forall p :: p in ranked ==> p in multiset(survivors);
    Analysed(ranked)
  }

  /** What `scan` returns: None (the empty dictionary) when disabled or when the snapshot
      request fails; otherwise the leading coins of each found list, as many as the
      per-alert maximum allows. */
  function ScanResult(cfg: Config, athAlerts: map<string, int>, atlAlerts: map<string, int>,
                      tickers: Option<seq<Ticker>>, fetch: (string, int) -> Option<seq<Kline>>, now: int)
    : (r: Option<Report>)
    ensures r.None? <==> !cfg.enabled || tickers.None?
    ensures r.Some? ==> |r.value.ath| <= 2 * TopN && |r.value.atl| <= 2 * TopN
    ensures r.Some? && cfg.maxCoinsPerAlert >= 0 ==>
      |r.value.ath| <= cfg.maxCoinsPerAlert && |r.value.atl| <= cfg.maxCoinsPerAlert
    ensures r.Some? ==>
      (forall c :: c in r.value.ath ==> !RollingSuppressed(athAlerts, c.symbol, now, cfg.cooldownHours))
      && (forall c :: c in r.value.atl ==> !RollingSuppressed(atlAlerts, c.symbol, now, cfg.cooldownHours))
    ensures r.Some? ==>
      var analysed := AnalysedPairs(cfg, tickers.value);
      var athFound := AthFound(cfg, athAlerts, now, fetch, analysed);
      var atlFound := AtlFound(cfg, atlAlerts, now, fetch, analysed);
      r.value.ath <= athFound && r.value.atl <= atlFound
      && (cfg.maxCoinsPerAlert >= 0 ==>
            |r.value.ath| == (if |athFound| < cfg.maxCoinsPerAlert then |athFound| else cfg.maxCoinsPerAlert)
            && |r.value.atl| == (if |atlFound| < cfg.maxCoinsPerAlert then |atlFound| else cfg.maxCoinsPerAlert))
  {
    if !cfg.enabled || tickers.None? then None
    else
      var analysed := AnalysedPairs(cfg, tickers.value);
      var athCoins := AthFound(cfg, athAlerts, now, fetch, analysed);
      var atlCoins := AtlFound(cfg, atlAlerts, now, fetch, analysed);
      Some(Report(Take(athCoins, cfg.maxCoinsPerAlert), Take(atlCoins, cfg.maxCoinsPerAlert)))
  }

  /** An analysed pair that qualifies for an ATH (ATL) alert is reported in that list,
      unless the list is already full of coins found before it. */
  lemma QualifyingCoinsAreReported(cfg: Config, athAlerts: map<string, int>, atlAlerts: map<string, int>,
                                   tickers: seq<Ticker>, fetch: (string, int) -> Option<seq<Kline>>, now: int, p: Pair)
    requires cfg.enabled && p in AnalysedPairs(cfg, tickers)
    ensures var r := ScanResult(cfg, athAlerts, atlAlerts, Some(tickers), fetch, now).value;
      var ath := AthVerdicts(cfg, athAlerts, now, fetch)(p);
      var atl := AtlVerdicts(cfg, atlAlerts, now, fetch)(p);
      cfg.maxCoinsPerAlert >= 0 ==>
        (ath.Some? ==> ath.value in r.ath || |r.ath| == cfg.maxCoinsPerAlert)
        && (atl.Some? ==> atl.value in r.atl || |r.atl| == cfg.maxCoinsPerAlert)
  {
    var analysed := AnalysedPairs(cfg, tickers);
    var athFound := AthFound(cfg, athAlerts, now, fetch, analysed);
    var atlFound := AtlFound(cfg, atlAlerts, now, fetch, analysed);
    var r := ScanResult(cfg, athAlerts, atlAlerts, Some(tickers), fetch, now).value;
    if cfg.maxCoinsPerAlert >= 0 && |athFound| <= cfg.maxCoinsPerAlert {
      assert r.ath == athFound;
    }
    if cfg.maxCoinsPerAlert >= 0 && |atlFound| <= cfg.maxCoinsPerAlert {
      assert r.atl == atlFound;
    }
  }

  /** Every reported coin is a USDT pair of the snapshot with enough volume. */
  lemma {:induction false} ReportedCoinsAreSurvivors(cfg: Config, athAlerts: map<string, int>, atlAlerts: map<string, int>,
                                                     tickers: seq<Ticker>, fetch: (string, int) -> Option<seq<Kline>>, now: int)
    requires cfg.enabled
    ensures var r := ScanResult(cfg, athAlerts, atlAlerts, Some(tickers), fetch, now).value;
      (forall c :: c in r.ath ==>
        exists t :: t in tickers && Eligible(t, cfg.minVolume24h) && t.symbol == c.symbol && t.lastPrice == c.price)
      && (forall c :: c in r.atl ==>
        exists t :: t in tickers && Eligible(t, cfg.minVolume24h) && t.symbol == c.symbol && t.lastPrice == c.price)
  {
    var analysed := AnalysedPairs(cfg, tickers);
    var athCoins := AthFound(cfg, athAlerts, now, fetch, analysed);
    var atlCoins := AtlFound(cfg, atlAlerts, now, fetch, analysed);
    var r := ScanResult(cfg, athAlerts, atlAlerts, Some(tickers), fetch, now).value;
    forall p | p in analysed
      ensures exists t :: t in tickers && Eligible(t, cfg.minVolume24h) && t.symbol == p.symbol && t.lastPrice == p.price
    {
      SurvivorsExactly(tickers, cfg.minVolume24h, p);
      var i :| 0 <= i < |tickers| && Eligible(tickers[i], cfg.minVolume24h) && ToPair(tickers[i]) == p;
      assert tickers[i] in tickers;
    }
    forall c | c in r.ath
      ensures exists t :: t in tickers && Eligible(t, cfg.minVolume24h) && t.symbol == c.symbol && t.lastPrice == c.price
    {
      var p :| p in analysed && p.symbol == c.symbol && p.price == c.price;
    }
    forall c | c in r.atl
      ensures exists t :: t in tickers && Eligible(t, cfg.minVolume24h) && t.symbol == c.symbol && t.lastPrice == c.price
    {
      var p :| p in analysed && p.symbol == c.symbol && p.price == c.price;
    }
  }

  /** With between 20 and 39 survivors, the pair that is both a top gainer and a top
      loser is analysed twice, and when it qualifies for an ATH alert the found list
      holds its coin twice (the cooldown is only written after the loop). */
  lemma OverlappingPairFoundTwice(cfg: Config, alerts: map<string, int>, now: int,
                                  fetch: (string, int) -> Option<seq<Kline>>, tickers: seq<Ticker>)
    requires TopN <= |Survivors(tickers, cfg.minVolume24h)| < 2 * TopN
    requires var ranked := RankByChange(Survivors(tickers, cfg.minVolume24h));
      AthVerdicts(cfg, alerts, now, fetch)(ranked[|ranked| - TopN]).Some?
    ensures var found := AthFound(cfg, alerts, now, fetch, AnalysedPairs(cfg, tickers));
      exists i, j :: 0 <= i < j < |found| && found[i] == found[j]
  {
    var ranked := RankByChange(Survivors(tickers, cfg.minVolume24h));
    var f := AthVerdicts(cfg, alerts, now, fetch);
    var found := AthFound(cfg, alerts, now, fetch, AnalysedPairs(cfg, tickers));
    assert found == Collect(Analysed(ranked), f);
    var i, j := OverlapCollectedTwice(ranked, f);
    assert found[i] == found[j];
  }

  /** Nothing yields nothing. */
  lemma {:induction false} CollectNothing<T, U>(s: seq<T>, f: T -> Option<U>)
    requires forall x :: x in s ==> f(x).None?
    ensures Collect(s, f) == []
  {
    if Collect(s, f) != [] {
      CollectSound(s, f, Collect(s, f)[0]);
    }
  }

  /** A lookback under 30 days asks for fewer than 30 candles; an exchange that honours
      the limit then never yields a usable history, and the scan reports nothing. */
  lemma ShortLookbackReportsNothing(cfg: Config, athAlerts: map<string, int>, atlAlerts: map<string, int>,
                                    tickers: Option<seq<Ticker>>, fetch: (string, int) -> Option<seq<Kline>>, now: int)
    requires cfg.lookbackDays < MinHistoryCandles
    requires forall symbol, limit :: fetch(symbol, limit).Some? ==> |fetch(symbol, limit).value| <= limit
    ensures var r := ScanResult(cfg, athAlerts, atlAlerts, tickers, fetch, now);
      r.Some? ==> r.value.ath == [] && r.value.atl == []
  {
    if cfg.enabled && tickers.Some? {
      var analysed := AnalysedPairs(cfg, tickers.value);
      forall p | p in analysed ensures PairExtremes(cfg, fetch, p).None? {
        var answer := fetch(p.symbol, HistoryLimit(cfg.lookbackDays));
        assert answer.Some? ==> |answer.value| <= HistoryLimit(cfg.lookbackDays);
      }
      CollectNothing(analysed, AthVerdicts(cfg, athAlerts, now, fetch));
      CollectNothing(analysed, AtlVerdicts(cfg, atlAlerts, now, fetch));
    }
  }

  /** Cooldown across scans: with the stores marked after one scan, a second scan less
      than `cooldownHours` later reports none of the symbols the first one reported. */
  lemma NoRepeatWithinCooldown(cfg: Config, athAlerts: map<string, int>, atlAlerts: map<string, int>,
                               tickers: Option<seq<Ticker>>, fetch: (string, int) -> Option<seq<Kline>>, now: int,
                               tickers2: Option<seq<Ticker>>, fetch2: (string, int) -> Option<seq<Kline>>, later: int)
    requires now <= later < now + cfg.cooldownHours * SecondsPerHour
    requires ScanResult(cfg, athAlerts, atlAlerts, tickers, fetch, now).Some?
    ensures var first := ScanResult(cfg, athAlerts, atlAlerts, tickers, fetch, now).value;
      var athAfter := MarkAll(athAlerts, SymbolsOf(first.ath, AthSymbol), now);
      var atlAfter := MarkAll(atlAlerts, SymbolsOf(first.atl, AtlSymbol), now);
      var second := ScanResult(cfg, athAfter, atlAfter, tickers2, fetch2, later);
      second.Some? ==>
        (forall c :: c in second.value.ath ==> c.symbol !in SymbolsOf(first.ath, AthSymbol))
        && (forall c :: c in second.value.atl ==> c.symbol !in SymbolsOf(first.atl, AtlSymbol))
  {
    var first := ScanResult(cfg, athAlerts, atlAlerts, tickers, fetch, now).value;
    var athSymbols, atlSymbols := SymbolsOf(first.ath, AthSymbol), SymbolsOf(first.atl, AtlSymbol);
    var athAfter := MarkAll(athAlerts, athSymbols, now);
    var atlAfter := MarkAll(atlAlerts, atlSymbols, now);
    var second := ScanResult(cfg, athAfter, atlAfter, tickers2, fetch2, later);
    if second.Some? {
      forall c | c in second.value.ath ensures c.symbol !in athSymbols {
        MarkAllEffect(athAlerts, athSymbols, now, c.symbol);
      }
      forall c | c in second.value.atl ensures c.symbol !in atlSymbols {
        MarkAllEffect(atlAlerts, atlSymbols, now, c.symbol);
      }
    }
  }

  // ---------------------------------------------------------------------------
  // The scanner object

  class AthAtlScanner {
    const cfg: Config
    /** Symbol to the instant (seconds) of its last ATH alert. */
    var lastAthAlerts: map<string, int>
    /** Symbol to the instant (seconds) of its last ATL alert. */
    var lastAtlAlerts: map<string, int>
    /** What the two cooldown files hold. */
    ghost var persistedAth: map<string, int>
    ghost var persistedAtl: map<string, int>

    /** Each cooldown file is written through on every change to its store. */
    ghost predicate Valid()
      reads this
    {
      persistedAth == lastAthAlerts && persistedAtl == lastAtlAlerts
    }

    /** `loadedAth` and `loadedAtl` are what the files held at start-up (empty when
        missing or corrupt). */
    constructor (cfg: Config, loadedAth: map<string, int>, loadedAtl: map<string, int>)
      ensures this.cfg == cfg && lastAthAlerts == loadedAth && lastAtlAlerts == loadedAtl && Valid()
    {
      this.cfg := cfg;
      lastAthAlerts := loadedAth;
      lastAtlAlerts := loadedAtl;
      persistedAth := loadedAth;
      persistedAtl := loadedAtl;
    }

    /** `alertType` "ath" consults the ATH store; any other value the ATL store. The
        symbol is suppressed until `cooldownHours` hours after its last alert. */
    predicate IsInCooldown(symbol: string, alertType: string, now: int)
      reads this
      ensures var store := if alertType == "ath" then lastAthAlerts else lastAtlAlerts;
        IsInCooldown(symbol, alertType, now) <==>
        (symbol in store && now < store[symbol] + cfg.cooldownHours * SecondsPerHour)
    {
      RollingSuppressed(if alertType == "ath" then lastAthAlerts else lastAtlAlerts, symbol, now, cfg.cooldownHours)
    }

    /** Overwrites the symbol's entry in the store `alertType` selects and writes that
        store through; the other store is untouched. */
    method MarkAlerted(symbol: string, alertType: string, now: int)
      requires Valid()
      modifies this
      ensures alertType == "ath" ==>
        lastAthAlerts == old(lastAthAlerts)[symbol := now] && lastAtlAlerts == old(lastAtlAlerts)
      ensures alertType != "ath" ==>
        lastAtlAlerts == old(lastAtlAlerts)[symbol := now] && lastAthAlerts == old(lastAthAlerts)
      ensures Valid()
    {
      if alertType == "ath" {
        lastAthAlerts := lastAthAlerts[symbol := now];
        persistedAth := lastAthAlerts;
      } else {
        lastAtlAlerts := lastAtlAlerts[symbol := now];
        persistedAtl := lastAtlAlerts;
      }
    }

    /** The body of the loop of `scan` for one pair: fetch the history, compute the
        extremes, then test each proximity and check each cooldown. */
    method CheckPair(pair: Pair, fetch: (string, int) -> Option<seq<Kline>>, now: int)
      returns (ath: Option<AthCoin>, atl: Option<AtlCoin>)
      ensures ath == AthVerdicts(cfg, lastAthAlerts, now, fetch)(pair)
      ensures atl == AtlVerdicts(cfg, lastAtlAlerts, now, fetch)(pair)
    {
      ath, atl := None, None;
      var klines := FetchHistoricalData(fetch, pair.symbol, cfg.lookbackDays);
      if klines.None? {
        return;
      }
      var data := CalculateAthAtl(klines.value, pair.price);
      if data.None? {
        return;
      }
      var x := data.value;
      if cfg.athEnabled && x.athDistancePct <= cfg.proximityThreshold {
        var isNewAth := pair.price >= x.ath;
        if !IsInCooldown(pair.symbol, "ath", now) {
          ath := Some(AthCoin(pair.symbol, pair.price, x.ath, x.athDistancePct, isNewAth, pair.changePct));
        }
      }
      if cfg.atlEnabled && x.atlDistancePct >= -cfg.proximityThreshold {
        var isNewAtl := pair.price <= x.atl;
        if !IsInCooldown(pair.symbol, "atl", now) {
          atl := Some(AtlCoin(pair.symbol, pair.price, x.atl, Abs(x.atlDistancePct), isNewAtl, pair.changePct));
        }
      }
    }

    /** The loop of `scan` over the analysed pairs, appending each pair's coins. */
    method FindCandidates(analysed: seq<Pair>, fetch: (string, int) -> Option<seq<Kline>>, now: int)
      returns (athCoins: seq<AthCoin>, atlCoins: seq<AtlCoin>)
      ensures athCoins == AthFound(cfg, lastAthAlerts, now, fetch, analysed)
      ensures atlCoins == AtlFound(cfg, lastAtlAlerts, now, fetch, analysed)
    {
      athCoins, atlCoins := [], [];
      ghost var athVerdict, atlVerdict := AthVerdicts(cfg, lastAthAlerts, now, fetch), AtlVerdicts(cfg, lastAtlAlerts, now, fetch);
      var i := 0;
      while i < |analysed|
        invariant 0 <= i <= |analysed|
        invariant athCoins == Collect(analysed[..i], athVerdict)
        invariant atlCoins == Collect(analysed[..i], atlVerdict)
      {
        var pair := analysed[i];
        var ath, atl := CheckPair(pair, fetch, now);
        CollectNext(analysed, athVerdict, i, athCoins, ath);
        CollectNext(analysed, atlVerdict, i, atlCoins, atl);
        if ath.Some? {
          athCoins := athCoins + [ath.value];
        }
        if atl.Some? {
          atlCoins := atlCoins + [atl.value];
        }
        i := i + 1;
      }
      assert analysed[..|analysed|] == analysed;
    }

    /** The marking loop: `mark_alerted(symbol, alertType)` on each symbol in turn. */
    method MarkBatch(symbols: seq<string>, alertType: string, now: int)
      requires Valid()
      modifies this
      ensures alertType == "ath" ==>
        lastAthAlerts == MarkAll(old(lastAthAlerts), symbols, now) && lastAtlAlerts == old(lastAtlAlerts)
      ensures alertType != "ath" ==>
        lastAtlAlerts == MarkAll(old(lastAtlAlerts), symbols, now) && lastAthAlerts == old(lastAthAlerts)
      ensures Valid()
    {
      var j := 0;
      while j < |symbols|
        invariant 0 <= j <= |symbols|
        invariant Valid()
        invariant alertType == "ath" ==>
          lastAthAlerts == MarkAll(old(lastAthAlerts), symbols[..j], now) && lastAtlAlerts == old(lastAtlAlerts)
        invariant alertType != "ath" ==>
          lastAtlAlerts == MarkAll(old(lastAtlAlerts), symbols[..j], now) && lastAthAlerts == old(lastAthAlerts)
      {
        assert symbols[..j + 1][..j] == symbols[..j];
        MarkAlerted(symbols[j], alertType, now);
        j := j + 1;
      }
      assert symbols[..|symbols|] == symbols;
    }

    method Scan(tickers: Option<seq<Ticker>>, fetch: (string, int) -> Option<seq<Kline>>, now: int)
      returns (r: Option<Report>)
      requires Valid()
      modifies this
      ensures Valid()
      ensures r == ScanResult(cfg, old(lastAthAlerts), old(lastAtlAlerts), tickers, fetch, now)
      ensures r.None? ==> lastAthAlerts == old(lastAthAlerts) && lastAtlAlerts == old(lastAtlAlerts)
      ensures r.Some? ==>
        lastAthAlerts == MarkAll(old(lastAthAlerts), SymbolsOf(r.value.ath, AthSymbol), now)
        && lastAtlAlerts == MarkAll(old(lastAtlAlerts), SymbolsOf(r.value.atl, AtlSymbol), now)
    {
      if !cfg.enabled {
        return None;
      }
      if tickers.None? {
        return None;
      }
      var allPairs := CollectPairs(tickers.value, cfg.minVolume24h);
      allPairs := RankByChange(allPairs);
      var topGainers := TopGainers(allPairs);
      var topLosers := TopLosers(allPairs);
      var athCoins, atlCoins := FindCandidates(topGainers + topLosers, fetch, now);
      athCoins := Take(athCoins, cfg.maxCoinsPerAlert);
      atlCoins := Take(atlCoins, cfg.maxCoinsPerAlert);
      if |athCoins| > 0 || |atlCoins| > 0 {
        MarkBatch(SymbolsOf(athCoins, AthSymbol), "ath", now);
        MarkBatch(SymbolsOf(atlCoins, AtlSymbol), "atl", now);
      }
      r := Some(Report(athCoins, atlCoins));
    }
  }
}
