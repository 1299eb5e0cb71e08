/** The volume scanner: the pairs of the snapshot that moved more than a threshold in
    24h, up (gainers) or down (losers), each kind with its own rolling cooldown store.
    The volume-spike list of its report is declared but never filled. */
module VolumeScan {
  import opened Market
  import opened Sorting
  import opened Cooldown
  import opened Universe

  datatype Config = Config(
    enabled: bool,
    volumeSpikeThreshold: real,   // stored, never consulted
    gainersEnabled: bool,
    gainersThreshold: real,       // in percent
    losersEnabled: bool,
    losersThreshold: real,        // in percent, as a positive magnitude
    minVolume24h: real,
    maxCoins: int,
    cooldownHours: int)

  /** The dictionary `scan` returns when the snapshot arrives. */
  datatype VolumeReport = VolumeReport(gainers: seq<Pair>, losers: seq<Pair>, volumeSpikes: seq<Pair>)

  predicate IsGainer(cfg: Config, p: Pair) {
    cfg.gainersEnabled && p.changePct > cfg.gainersThreshold
  }

  predicate IsLoser(cfg: Config, p: Pair) {
    cfg.losersEnabled && p.changePct < -cfg.losersThreshold
  }

  /** With non-negative thresholds no pair is both a gainer and a loser. */
  lemma NeverBothGainerAndLoser(cfg: Config, p: Pair)
    requires cfg.gainersThreshold >= 0.0 && cfg.losersThreshold >= 0.0
    ensures !(IsGainer(cfg, p) && IsLoser(cfg, p))
  {
  }

  /** The gainer verdict on one surviving pair. */
  function GainerVerdicts(cfg: Config, alerts: map<string, int>, now: int): Pair -> Option<Pair>
  {
    (p: Pair) => if IsGainer(cfg, p) && !RollingSuppressed(alerts, p.symbol, now, cfg.cooldownHours) then Some(p) else None
  }

  /** The loser verdict on one surviving pair. */
  function LoserVerdicts(cfg: Config, alerts: map<string, int>, now: int): Pair -> Option<Pair>
  {
    (p: Pair) => if IsLoser(cfg, p) && !RollingSuppressed(alerts, p.symbol, now, cfg.cooldownHours) then Some(p) else None
  }

  /** The gainers found, in snapshot order: exactly the survivors that are gainers and
      not in gainer cooldown. */
  function GainersFound(cfg: Config, alerts: map<string, int>, now: int, survivors: seq<Pair>): (r: seq<Pair>)
    ensures |r| <= |survivors|
    ensures forall p :: p in r <==>
      (p in survivors && IsGainer(cfg, p) && !RollingSuppressed(alerts, p.symbol, now, cfg.cooldownHours))
  {
    var f := GainerVerdicts(cfg, alerts, now);
    var r := Collect(survivors, f);
    forall p ensures p in r <==> (p in survivors && f(p) == Some(p)) {
      if p in r {
        CollectSound(survivors, f, p);
        var q :| q in survivors && f(q) == Some(p);
      }
      if p in survivors && f(p) == Some(p) {
        CollectComplete(survivors, f, p);
      }
    }
    r
  }

  /** The losers found, in snapshot order: exactly the survivors that are losers and
      not in loser cooldown. */
  function LosersFound(cfg: Config, alerts: map<string, int>, now: int, survivors: seq<Pair>): (r: seq<Pair>)
    ensures |r| <= |survivors|
    ensures forall p :: p in r <==>
      (p in survivors && IsLoser(cfg, p) && !RollingSuppressed(alerts, p.symbol, now, cfg.cooldownHours))
  {
    var f := LoserVerdicts(cfg, alerts, now);
    var r := Collect(survivors, f);
    forall p ensures p in r <==> (p in survivors && f(p) == Some(p)) {
      if p in r {
        CollectSound(survivors, f, p);
        var q :| q in survivors && f(q) == Some(p);
      }
      if p in survivors && f(p) == Some(p) {
        CollectComplete(survivors, f, p);
      }
    }
    r
  }

  function ChangeAscKey(p: Pair): real { p.changePct }

  /** Sorted by 24h change, smallest (most negative) first; ties keep snapshot order. */
  function RankByChangeAscending(pairs: seq<Pair>): (r: seq<Pair>)
    ensures multiset(r) == multiset(pairs)
    ensures forall i, j :: 0 <= i < j < |r| ==> r[i].changePct <= r[j].changePct
  {
    var r := SortBy(pairs, ChangeAscKey);
    assert forall i, j :: 0 <= i < j < |r| ==> ChangeAscKey(r[i]) <= ChangeAscKey(r[j]);
    r
  }

  /** The gainers a scan reports: the gainers found, largest rise first, cut to `max`. */
  function ReportedGainers(cfg: Config, alerts: map<string, int>, now: int, survivors: seq<Pair>): (r: seq<Pair>)
    ensures cfg.maxCoins >= 0 ==> |r| <= cfg.maxCoins
    ensures forall i, j :: 0 <= i < j < |r| ==> r[i].changePct >= r[j].changePct
    ensures forall p :: p in r ==>
      p in survivors && IsGainer(cfg, p) && !RollingSuppressed(alerts, p.symbol, now, cfg.cooldownHours)
  {
    var found := GainersFound(cfg, alerts, now, survivors);
    var ranked := RankByChange(found);
    var r := Take(ranked, cfg.maxCoins);
    forall p | p in r ensures p in found {
      assert p in multiset(ranked);
    }
    assert forall i :: 0 <= i < |r| ==> r[i] == ranked[i];
    r
  }

  /** The losers a scan reports: the losers found, largest fall first, cut to `max`. */
  function ReportedLosers(cfg: Config, alerts: map<string, int>, now: int, survivors: seq<Pair>): (r: seq<Pair>)
    ensures cfg.maxCoins >= 0 ==> |r| <= cfg.maxCoins
    ensures forall i, j :: 0 <= i < j < |r| ==> r[i].changePct <= r[j].changePct
    ensures forall p :: p in r ==>
      p in survivors && IsLoser(cfg, p) && !RollingSuppressed(alerts, p.symbol, now, cfg.cooldownHours)
  {
    var found := LosersFound(cfg, alerts, now, survivors);
    var ranked := RankByChangeAscending(found);
    var r := Take(ranked, cfg.maxCoins);
    forall p | p in r ensures p in found {
      assert p in multiset(ranked);
    }
    assert forall i :: 0 <= i < |r| ==> r[i] == ranked[i];
    r
  }

  /** What `scan` returns: None (the empty dictionary) when disabled or when the snapshot
      request fails; otherwise the gainers and losers reported over the snapshot's
      survivors, and no volume spikes. */
  function ScanResult(cfg: Config, gainerAlerts: map<string, int>, loserAlerts: map<string, int>,
                      tickers: Option<seq<Ticker>>, now: int): (r: Option<VolumeReport>)
    ensures r.None? <==> !cfg.enabled || tickers.None?
    ensures r.Some? ==> r.value.volumeSpikes == []
    ensures r.Some? && cfg.maxCoins >= 0 ==> |r.value.gainers| <= cfg.maxCoins && |r.value.losers| <= cfg.maxCoins
    ensures r.Some? ==>
      (forall p :: p in r.value.gainers ==>
        IsGainer(cfg, p) && !RollingSuppressed(gainerAlerts, p.symbol, now, cfg.cooldownHours))
      && (forall p :: p in r.value.losers ==>
        IsLoser(cfg, p) && !RollingSuppressed(loserAlerts, p.symbol, now, cfg.cooldownHours))
    ensures r.Some? ==>
      var survivors := Survivors(tickers.value, cfg.minVolume24h);
      r.value.gainers == ReportedGainers(cfg, gainerAlerts, now, survivors)
      && r.value.losers == ReportedLosers(cfg, loserAlerts, now, survivors)
  {
    if !cfg.enabled || tickers.None? then None
    else
      var survivors := Survivors(tickers.value, cfg.minVolume24h);
      Some(VolumeReport(ReportedGainers(cfg, gainerAlerts, now, survivors),
                        ReportedLosers(cfg, loserAlerts, now, survivors), Take([], cfg.maxCoins)))
  }

  /** Cutting a list ranked by falling change leaves out only pairs that changed no more
      than every pair kept. */
  lemma CutDescendingKeepsStrongest(ranked: seq<Pair>, n: int, p: Pair)
    requires n >= 0 && p in ranked
    requires forall i, j :: 0 <= i < j < |ranked| ==> ranked[i].changePct >= ranked[j].changePct
    ensures var r := Take(ranked, n);
      p !in r ==> |r| == n && forall q :: q in r ==> q.changePct >= p.changePct
  {
    var k :| 0 <= k < |ranked| && ranked[k] == p;
    var r := Take(ranked, n);
    if p !in r {
      assert r == ranked[..n] && k >= n;
      forall q | q in r ensures q.changePct >= p.changePct {
        var i :| 0 <= i < |r| && r[i] == q;
        assert ranked[i] == q && i < k;
      }
    }
  }

  /** Cutting a list ranked by rising change leaves out only pairs that changed no less
      than every pair kept. */
  lemma CutAscendingKeepsStrongest(ranked: seq<Pair>, n: int, p: Pair)
    requires n >= 0 && p in ranked
    requires forall i, j :: 0 <= i < j < |ranked| ==> ranked[i].changePct <= ranked[j].changePct
    ensures var r := Take(ranked, n);
      p !in r ==> |r| == n && forall q :: q in r ==> q.changePct <= p.changePct
  {
    var k :| 0 <= k < |ranked| && ranked[k] == p;
    var r := Take(ranked, n);
    if p !in r {
      assert r == ranked[..n] && k >= n;
      forall q | q in r ensures q.changePct <= p.changePct {
        var i :| 0 <= i < |r| && r[i] == q;
        assert ranked[i] == q && i < k;
      }
    }
  }

  /** The cut keeps the strongest gainers: a surviving gainer out of cooldown that is not
      reported was crowded out by `maxCoins` gainers that rose at least as much. */
  lemma {:induction false} StrongestGainersAreReported(cfg: Config, alerts: map<string, int>, now: int,
                                                       survivors: seq<Pair>, p: Pair)
    requires cfg.maxCoins >= 0
    requires p in survivors && IsGainer(cfg, p) && !RollingSuppressed(alerts, p.symbol, now, cfg.cooldownHours)
    ensures var r := ReportedGainers(cfg, alerts, now, survivors);
      p !in r ==> |r| == cfg.maxCoins && forall q :: q in r ==> q.changePct >= p.changePct
  {
    var found := GainersFound(cfg, alerts, now, survivors);
    var ranked := RankByChange(found);
    assert p in found;
    assert p in multiset(ranked);
    CutDescendingKeepsStrongest(ranked, cfg.maxCoins, p);
  }

  /** The cut keeps the strongest losers: a surviving loser out of cooldown that is not
      reported was crowded out by `maxCoins` losers that fell at least as much. */
  lemma {:induction false} StrongestLosersAreReported(cfg: Config, alerts: map<string, int>, now: int,
                                                      survivors: seq<Pair>, p: Pair)
    requires cfg.maxCoins >= 0
    requires p in survivors && IsLoser(cfg, p) && !RollingSuppressed(alerts, p.symbol, now, cfg.cooldownHours)
    ensures var r := ReportedLosers(cfg, alerts, now, survivors);
      p !in r ==> |r| == cfg.maxCoins && forall q :: q in r ==> q.changePct <= p.changePct
  {
    var found := LosersFound(cfg, alerts, now, survivors);
    var ranked := RankByChangeAscending(found);
    assert p in found;
    assert p in multiset(ranked);
    CutAscendingKeepsStrongest(ranked, cfg.maxCoins, p);
  }

  function PairSymbol(p: Pair): string { p.symbol }

  /** Cooldown across scans: with the stores marked after one scan, a second scan less
      than `cooldownHours` later reports none of the symbols the first one reported,
      in the same list. */
  lemma NoRepeatWithinCooldown(cfg: Config, gainerAlerts: map<string, int>, loserAlerts: map<string, int>,
                               tickers: Option<seq<Ticker>>, now: int, tickers2: Option<seq<Ticker>>, later: int)
    requires now <= later < now + cfg.cooldownHours * SecondsPerHour
    requires ScanResult(cfg, gainerAlerts, loserAlerts, tickers, now).Some?
    ensures var first := ScanResult(cfg, gainerAlerts, loserAlerts, tickers, now).value;
      var gainersAfter := MarkAll(gainerAlerts, SymbolsOf(first.gainers, PairSymbol), now);
      var losersAfter := MarkAll(loserAlerts, SymbolsOf(first.losers, PairSymbol), now);
      var second := ScanResult(cfg, gainersAfter, losersAfter, tickers2, later);
      second.Some? ==>
        (forall p :: p in second.value.gainers ==> p.symbol !in SymbolsOf(first.gainers, PairSymbol))
        && (forall p :: p in second.value.losers ==> p.symbol !in SymbolsOf(first.losers, PairSymbol))
  {
    var first := ScanResult(cfg, gainerAlerts, loserAlerts, tickers, now).value;
    var gainerSymbols, loserSymbols := SymbolsOf(first.gainers, PairSymbol), SymbolsOf(first.losers, PairSymbol);
    var second := ScanResult(cfg, MarkAll(gainerAlerts, gainerSymbols, now), MarkAll(loserAlerts, loserSymbols, now), tickers2, later);
    if second.Some? {
      forall p | p in second.value.gainers ensures p.symbol !in gainerSymbols {
        MarkAllEffect(gainerAlerts, gainerSymbols, now, p.symbol);
      }
      forall p | p in second.value.losers ensures p.symbol !in loserSymbols {
        MarkAllEffect(loserAlerts, loserSymbols, now, p.symbol);
      }
    }
  }

  // ---------------------------------------------------------------------------
  // The scanner object

  class VolumeScanner {
    const cfg: Config
    /** Symbol to the instant (seconds) of its last gainer alert. */
    var lastGainers: map<string, int>
    /** Symbol to the instant (seconds) of its last loser alert. */
    var lastLosers: map<string, int>
    /** What the two cooldown files hold. */
    ghost var persistedGainers: map<string, int>
    ghost var persistedLosers: map<string, int>

    /** Each cooldown file is written through on every change to its store. */
    ghost predicate Valid()
      reads this
    {
      persistedGainers == lastGainers && persistedLosers == lastLosers
    }

    /** `loadedGainers` and `loadedLosers` are what the files held at start-up (empty
        when missing or corrupt). */
    constructor (cfg: Config, loadedGainers: map<string, int>, loadedLosers: map<string, int>)
      ensures this.cfg == cfg && lastGainers == loadedGainers && lastLosers == loadedLosers && Valid()
    {
      this.cfg := cfg;
      lastGainers := loadedGainers;
      lastLosers := loadedLosers;
      persistedGainers := loadedGainers;
      persistedLosers := loadedLosers;
    }

    /** `alertType` "gainer" consults the gainer store; any other value the loser store.
        The symbol is suppressed until `cooldownHours` hours after its last alert. */
    predicate IsInCooldown(symbol: string, alertType: string, now: int)
      reads this
      ensures var store := if alertType == "gainer" then lastGainers else lastLosers;
        IsInCooldown(symbol, alertType, now) <==>
        (symbol in store && now < store[symbol] + cfg.cooldownHours * SecondsPerHour)
    {
      RollingSuppressed(if alertType == "gainer" then lastGainers else lastLosers, symbol, now, cfg.cooldownHours)
    }

    /** Overwrites the symbol's entry in the store `alertType` selects and writes that
        store through; the other store is untouched. */
    method MarkAlerted(symbol: string, alertType: string, now: int)
      requires Valid()
      modifies this
      ensures alertType == "gainer" ==>
        lastGainers == old(lastGainers)[symbol := now] && lastLosers == old(lastLosers)
      ensures alertType != "gainer" ==>
        lastLosers == old(lastLosers)[symbol := now] && lastGainers == old(lastGainers)
      ensures Valid()
    {
      if alertType == "gainer" {
        lastGainers := lastGainers[symbol := now];
        persistedGainers := lastGainers;
      } else {
        lastLosers := lastLosers[symbol := now];
        persistedLosers := lastLosers;
      }
    }

    /** The tests of the loop body on one liquid pair: gainer, then loser, each with
        its own cooldown check. */
    method Classify(p: Pair, now: int) returns (gainer: Option<Pair>, loser: Option<Pair>)
      ensures gainer == GainerVerdicts(cfg, lastGainers, now)(p)
      ensures loser == LoserVerdicts(cfg, lastLosers, now)(p)
    {
      gainer, loser := None, None;
      if cfg.gainersEnabled && p.changePct > cfg.gainersThreshold {
        if !IsInCooldown(p.symbol, "gainer", now) {
          gainer := Some(p);
        }
      }
      if cfg.losersEnabled && p.changePct < -cfg.losersThreshold {
        if !IsInCooldown(p.symbol, "loser", now) {
          loser := Some(p);
        }
      }
    }

    /** The body of the loop of `scan` for one ticker: skip it unless it is a liquid USDT
        pair, then classify it. */
    method VisitTicker(item: Ticker, now: int) returns (gainer: Option<Pair>, loser: Option<Pair>)
      ensures Eligible(item, cfg.minVolume24h) ==>
        gainer == GainerVerdicts(cfg, lastGainers, now)(ToPair(item))
        && loser == LoserVerdicts(cfg, lastLosers, now)(ToPair(item))
      ensures !Eligible(item, cfg.minVolume24h) ==> gainer.None? && loser.None?
    {
      gainer, loser := None, None;
      if IsUsdtPair(item.symbol) {
        var volume := QuoteVolume(item);
        if volume >= cfg.minVolume24h {
          gainer, loser := Classify(Pair(item.symbol, item.lastPrice, ChangePct(item), volume), now);
        }
      }
    }

    /** The loop of `scan` over the USDT pairs: skip the illiquid, classify the rest. */
    method FindMovers(tickers: seq<Ticker>, now: int) returns (gainers: seq<Pair>, losers: seq<Pair>)
      ensures gainers == GainersFound(cfg, lastGainers, now, Survivors(tickers, cfg.minVolume24h))
      ensures losers == LosersFound(cfg, lastLosers, now, Survivors(tickers, cfg.minVolume24h))
    {
      gainers, losers := [], [];
      ghost var isGainer, isLoser := GainerVerdicts(cfg, lastGainers, now), LoserVerdicts(cfg, lastLosers, now);
      var i := 0;
      while i < |tickers|
        invariant 0 <= i <= |tickers|
        invariant gainers == Collect(Survivors(tickers[..i], cfg.minVolume24h), isGainer)
        invariant losers == Collect(Survivors(tickers[..i], cfg.minVolume24h), isLoser)
      {
        var gainer, loser := VisitTicker(tickers[i], now);
        CollectSurvivorsStep(tickers, cfg.minVolume24h, i, isGainer, gainers, gainer);
        CollectSurvivorsStep(tickers, cfg.minVolume24h, i, isLoser, losers, loser);
        if gainer.Some? {
          gainers := gainers + [gainer.value];
        }
        if loser.Some? {
          losers := losers + [loser.value];
        }
        i := i + 1;
      }
      assert tickers[..|tickers|] == tickers;
    }

    /** The marking loop: `mark_alerted(symbol, alertType)` on each symbol in turn. */
    method MarkBatch(symbols: seq<string>, alertType: string, now: int)
      requires Valid()
      modifies this
      ensures alertType == "gainer" ==>
        lastGainers == MarkAll(old(lastGainers), symbols, now) && lastLosers == old(lastLosers)
      ensures alertType != "gainer" ==>
        lastLosers == MarkAll(old(lastLosers), symbols, now) && lastGainers == old(lastGainers)
      ensures Valid()
    {
      var j := 0;
      while j < |symbols|
        invariant 0 <= j <= |symbols|
        invariant Valid()
        invariant alertType == "gainer" ==>
          lastGainers == MarkAll(old(lastGainers), symbols[..j], now) && lastLosers == old(lastLosers)
        invariant alertType != "gainer" ==>
          lastLosers == MarkAll(old(lastLosers), symbols[..j], now) && lastGainers == old(lastGainers)
      {
        assert symbols[..j + 1][..j] == symbols[..j];
        MarkAlerted(symbols[j], alertType, now);
        j := j + 1;
      }
      assert symbols[..|symbols|] == symbols;
    }

    method Scan(tickers: Option<seq<Ticker>>, now: int) returns (r: Option<VolumeReport>)
      requires Valid()
      modifies this
      ensures Valid()
      ensures r == ScanResult(cfg, old(lastGainers), old(lastLosers), tickers, now)
      ensures r.None? ==> lastGainers == old(lastGainers) && lastLosers == old(lastLosers)
      ensures r.Some? ==>
        lastGainers == MarkAll(old(lastGainers), SymbolsOf(r.value.gainers, PairSymbol), now)
        && lastLosers == MarkAll(old(lastLosers), SymbolsOf(r.value.losers, PairSymbol), now)
    {
      if !cfg.enabled {
        return None;
      }
      if tickers.None? {
        return None;
      }
      var gainers, losers := FindMovers(tickers.value, now);
      gainers := RankByChange(gainers);
      losers := RankByChangeAscending(losers);
      assert Take(gainers, cfg.maxCoins) == ReportedGainers(cfg, old(lastGainers), now, Survivors(tickers.value, cfg.minVolume24h));
      var volumeSpikes: seq<Pair> := [];
      r := Some(VolumeReport(Take(gainers, cfg.maxCoins), Take(losers, cfg.maxCoins), Take(volumeSpikes, cfg.maxCoins)));
      if |gainers| > 0 || |losers| > 0 {
        MarkBatch(SymbolsOf(Take(gainers, cfg.maxCoins), PairSymbol), "gainer", now);
        MarkBatch(SymbolsOf(Take(losers, cfg.maxCoins), PairSymbol), "loser", now);
      }
    }
  }
}
