/** The daily flip scanner: among the top 20 gainers and top 20 losers of the day, the
    pairs whose 24h change is close enough to zero that the day's candle may change
    colour. The change is recomputed from the last price and the price 24h earlier.
    One rolling cooldown store; nothing found is ever cut. */
module DailyFlip {
  import opened Market
  import opened Cooldown
  import opened Universe

  datatype Config = Config(
    enabled: bool,
    flipThreshold: real,   // in percent, as configured
    flipType: string,      // "both", "green_to_red" or "red_to_green"
    maxCoins: int,         // stored, never consulted
    minVolume24h: real,
    cooldownHours: int)

  // ---------------------------------------------------------------------------
  // The change and the flip test

  /** The price the day opened at: the price 24h earlier, or the last price when the
      snapshot lacks it. */
  function OpenPrice(t: Ticker): real {
    t.prevPrice24h.GetOr(t.lastPrice)
  }

  /** The change from the open in percent. */
  function FlipChange(t: Ticker): (c: real)
    requires OpenPrice(t) != 0.0
    ensures c * OpenPrice(t) == (t.lastPrice - OpenPrice(t)) * 100.0
  {
    (t.lastPrice - OpenPrice(t)) / OpenPrice(t) * 100.0
  }

  /** Without the price 24h earlier the change is zero. */
  lemma MissingOpenMeansNoChange(t: Ticker)
    requires t.prevPrice24h.None? && t.lastPrice != 0.0
    ensures FlipChange(t) == 0.0
  {
  }

  /** A surviving ticker as the scan keeps it: symbol, last price, the change recomputed
      from the open price, and quote volume. */
  function FlipPair(t: Ticker): (p: Pair)
    requires OpenPrice(t) != 0.0
    ensures p.symbol == t.symbol && p.price == t.lastPrice && p.quoteVolume == QuoteVolume(t)
    ensures p.changePct * OpenPrice(t) == (t.lastPrice - OpenPrice(t)) * 100.0
  {
    Pair(t.symbol, t.lastPrice, FlipChange(t), QuoteVolume(t))
  }

  /** The survivors of the filter with their recomputed change, in snapshot order; None
      when a survivor's open price is zero (the division raises and the scan returns []). */
  function FlipSurvivors(ts: seq<Ticker>, minVolume: real): (r: Option<seq<Pair>>)
    ensures r.Some? ==> |r.value| <= |ts|
    ensures r.Some? ==> forall i :: 0 <= i < |r.value| ==>
      IsUsdtPair(r.value[i].symbol) && r.value[i].quoteVolume >= minVolume
  {
    if ts == [] then Some([])
    else
      var t := ts[|ts| - 1];
      match FlipSurvivors(ts[..|ts| - 1], minVolume)
      case None => None
      case Some(rest) =>
        if !Eligible(t, minVolume) then Some(rest)
        else if OpenPrice(t) == 0.0 then None
        else Some(rest + [FlipPair(t)])
  }

  /** The division raises exactly when some liquid USDT pair has an open price of zero. */
  lemma {:induction false} FlipSurvivorsFailExactly(ts: seq<Ticker>, minVolume: real)
    ensures FlipSurvivors(ts, minVolume).None? <==>
      exists i :: 0 <= i < |ts| && Eligible(ts[i], minVolume) && OpenPrice(ts[i]) == 0.0
  {
    if ts != [] {
      var init := ts[..|ts| - 1];
      FlipSurvivorsFailExactly(init, minVolume);
      assert forall i :: 0 <= i < |init| ==> init[i] == ts[i];
    }
  }

  /** When the walk completes, every liquid USDT ticker has a non-zero open price, and a pair
      survives exactly when such a ticker produced it, with its change recomputed. */
  lemma {:induction false} FlipSurvivorsExactly(ts: seq<Ticker>, minVolume: real, p: Pair)
    requires FlipSurvivors(ts, minVolume).Some?
    ensures forall i :: 0 <= i < |ts| && Eligible(ts[i], minVolume) ==> OpenPrice(ts[i]) != 0.0
    ensures p in FlipSurvivors(ts, minVolume).value <==>
      exists i :: 0 <= i < |ts| && Eligible(ts[i], minVolume) && OpenPrice(ts[i]) != 0.0 && FlipPair(ts[i]) == p
  {
    FlipSurvivorsFailExactly(ts, minVolume);
    if ts != [] {
      var init := ts[..|ts| - 1];
      assert FlipSurvivors(init, minVolume).Some?;
      FlipSurvivorsExactly(init, minVolume, p);
      assert forall i :: 0 <= i < |init| ==> init[i] == ts[i];
    }
  }

  /** Once the walk has raised on a prefix, the whole walk raises. */
  lemma {:induction false} FlipSurvivorsFailSticky(ts: seq<Ticker>, minVolume: real, k: nat)
    requires k <= |ts| && FlipSurvivors(ts[..k], minVolume).None?
    ensures FlipSurvivors(ts, minVolume).None?
  {
    FlipSurvivorsFailExactly(ts[..k], minVolume);
    var i :| 0 <= i < k && Eligible(ts[..k][i], minVolume) && OpenPrice(ts[..k][i]) == 0.0;
    assert ts[..k][i] == ts[i];
    FlipSurvivorsFailExactly(ts, minVolume);
  }

  /** The threshold is stored as a fraction and compared as a percentage. */
  function StoredThreshold(cfg: Config): real {
    cfg.flipThreshold / 100.0
  }

  predicate NearFlip(storedThreshold: real, change: real) {
    Abs(change) < storedThreshold * 100.0
  }

  /** Dividing by 100 and multiplying back leaves the configured threshold: a pair is
      near a flip exactly when its change is strictly inside the threshold either way. */
  lemma NearFlipIsConfiguredThreshold(cfg: Config, change: real)
    ensures NearFlip(StoredThreshold(cfg), change) <==>
      (-cfg.flipThreshold < change < cfg.flipThreshold)
  {
  }

  datatype FlipDirection = GreenToRed | RedToGreen

  /** A positive change may turn red; anything else, zero included, may turn green. */
  function Direction(change: real): (d: FlipDirection)
    ensures d == GreenToRed <==> change > 0.0
  {
    if change > 0.0 then GreenToRed else RedToGreen
  }

  /** The flip type filter. */
  predicate AdmitsFlip(flipType: string, change: real) {
    flipType == "both"
    || (flipType == "green_to_red" && change > 0.0)
    || (flipType == "red_to_green" && change < 0.0)
  }

  /** "both" admits every change, "green_to_red" only rises, "red_to_green" only falls,
      and any other setting nothing; so an unchanged pair passes only under "both". */
  lemma AdmitsFlipTable(flipType: string, change: real)
    ensures flipType == "both" ==> AdmitsFlip(flipType, change)
    ensures flipType == "green_to_red" ==> (AdmitsFlip(flipType, change) <==> change > 0.0)
    ensures flipType == "red_to_green" ==> (AdmitsFlip(flipType, change) <==> change < 0.0)
    ensures flipType != "both" && flipType != "green_to_red" && flipType != "red_to_green" ==>
      !AdmitsFlip(flipType, change)
    ensures change == 0.0 ==> (AdmitsFlip(flipType, change) <==> flipType == "both")
  {
  }

  /** An admitted flip's direction agrees with the filter that admitted it. */
  lemma AdmittedDirection(flipType: string, change: real)
    requires AdmitsFlip(flipType, change)
    ensures flipType == "green_to_red" ==> Direction(change) == GreenToRed
    ensures flipType == "red_to_green" ==> Direction(change) == RedToGreen
  {
  }

  // ---------------------------------------------------------------------------
  // The scan

  datatype FlipCoin = FlipCoin(symbol: string, price: real, changePct: real, direction: FlipDirection)

  function CoinSymbol(c: FlipCoin): string { c.symbol }

  /** The verdict on one analysed pair. */
  function FlipVerdicts(cfg: Config, alerts: map<string, int>, now: int): Pair -> Option<FlipCoin>
  {
    (p: Pair) =>
      if NearFlip(StoredThreshold(cfg), p.changePct) && AdmitsFlip(cfg.flipType, p.changePct)
         && !RollingSuppressed(alerts, p.symbol, now, cfg.cooldownHours)
      then Some(FlipCoin(p.symbol, p.price, p.changePct, Direction(p.changePct)))
      else None
  }

  /** The flips found over the analysed pairs, in analysis order: each passes the tests,
      and every flip an analysed pair yields is among them. */
  function FlipsFound(cfg: Config, alerts: map<string, int>, now: int, analysed: seq<Pair>): (r: seq<FlipCoin>)
    ensures |r| <= |analysed|
    ensures forall c :: c in r ==>
      -cfg.flipThreshold < c.changePct < cfg.flipThreshold && AdmitsFlip(cfg.flipType, c.changePct)
      && (c.direction == GreenToRed <==> c.changePct > 0.0)
      && !RollingSuppressed(alerts, c.symbol, now, cfg.cooldownHours)
      && exists p :: p in analysed && p.symbol == c.symbol && p.price == c.price && p.changePct == c.changePct
    ensures forall p :: p in analysed && FlipVerdicts(cfg, alerts, now)(p).Some? ==>
      FlipVerdicts(cfg, alerts, now)(p).value in r
  {
    var f := FlipVerdicts(cfg, alerts, now);
    var r := Collect(analysed, f);
    forall c | c in r
      ensures -cfg.flipThreshold < c.changePct < cfg.flipThreshold && AdmitsFlip(cfg.flipType, c.changePct)
        && (c.direction == GreenToRed <==> c.changePct > 0.0)
        && !RollingSuppressed(alerts, c.symbol, now, cfg.cooldownHours)
        && exists p :: p in analysed && p.symbol == c.symbol && p.price == c.price && p.changePct == c.changePct
    {
      CollectSound(analysed, f, c);
      var p :| p in analysed && f(p) == Some(c);
      NearFlipIsConfiguredThreshold(cfg, p.changePct);
    }
    forall p | p in analysed && f(p).Some? ensures f(p).value in r {
      CollectComplete(analysed, f, p);
    }
    r
  }

  /** What `scan` returns: [] when disabled, when the snapshot request fails or when a
      survivor's open price is zero; otherwise every flip found among the top 20
      gainers and top 20 losers, uncut: each qualifying analysed pair is reported, and
      each flip reported is the verdict on an analysed pair. */
  function ScanResult(cfg: Config, alerts: map<string, int>, tickers: Option<seq<Ticker>>, now: int)
    : (r: seq<FlipCoin>)
    ensures !cfg.enabled || tickers.None? ==> r == []
    ensures tickers.Some? && FlipSurvivors(tickers.value, cfg.minVolume24h).None? ==> r == []
    ensures |r| <= 2 * TopN
    ensures forall c :: c in r ==>
      -cfg.flipThreshold < c.changePct < cfg.flipThreshold && AdmitsFlip(cfg.flipType, c.changePct)
      && !RollingSuppressed(alerts, c.symbol, now, cfg.cooldownHours)
    ensures cfg.enabled && tickers.Some? && FlipSurvivors(tickers.value, cfg.minVolume24h).Some? ==>
      var analysed := Analysed(RankByChange(FlipSurvivors(tickers.value, cfg.minVolume24h).value));
      (forall p :: p in analysed && FlipVerdicts(cfg, alerts, now)(p).Some? ==>
         FlipVerdicts(cfg, alerts, now)(p).value in r)
      && (forall c :: c in r ==> exists p :: p in analysed && FlipVerdicts(cfg, alerts, now)(p) == Some(c))
  {
    if !cfg.enabled || tickers.None? then []
    else
      match FlipSurvivors(tickers.value, cfg.minVolume24h)
      case None => []
      case Some(survivors) =>
        var analysed := Analysed(RankByChange(survivors));
        var f := FlipVerdicts(cfg, alerts, now);
        var r := FlipsFound(cfg, alerts, now, analysed);
        assert r == Collect(analysed, f);
        forall c | c in r ensures exists p :: p in analysed && f(p) == Some(c) {
          CollectSound(analysed, f, c);
        }
        r
  }

  /** With between 20 and 39 survivors, the pair that is both a top gainer and a top
      loser is analysed twice; when it qualifies, the scan reports it twice. */
  lemma OverlappingPairReportedTwice(cfg: Config, alerts: map<string, int>, tickers: seq<Ticker>, now: int)
    requires cfg.enabled && FlipSurvivors(tickers, cfg.minVolume24h).Some?
    requires TopN <= |FlipSurvivors(tickers, cfg.minVolume24h).value| < 2 * TopN
    requires var ranked := RankByChange(FlipSurvivors(tickers, cfg.minVolume24h).value);
      FlipVerdicts(cfg, alerts, now)(ranked[|ranked| - TopN]).Some?
    ensures var r := ScanResult(cfg, alerts, Some(tickers), now);
      exists i, j :: 0 <= i < j < |r| && r[i] == r[j]
  {
    var ranked := RankByChange(FlipSurvivors(tickers, cfg.minVolume24h).value);
    var f := FlipVerdicts(cfg, alerts, now);
    var r := ScanResult(cfg, alerts, Some(tickers), now);
    assert r == Collect(Analysed(ranked), f);
    var i, j := OverlapCollectedTwice(ranked, f);
    assert r[i] == r[j];
  }

  /** Cooldown across scans: with the store marked after one scan, a second scan less
      than `cooldownHours` later reports none of the symbols the first one reported. */
  lemma NoRepeatWithinCooldown(cfg: Config, alerts: map<string, int>, tickers: Option<seq<Ticker>>, now: int,
                               tickers2: Option<seq<Ticker>>, later: int)
    requires now <= later < now + cfg.cooldownHours * SecondsPerHour
    ensures var reported := SymbolsOf(ScanResult(cfg, alerts, tickers, now), CoinSymbol);
      forall c :: c in ScanResult(cfg, MarkAll(alerts, reported, now), tickers2, later) ==> c.symbol !in reported
  {
    var reported := SymbolsOf(ScanResult(cfg, alerts, tickers, now), CoinSymbol);
    forall c | c in ScanResult(cfg, MarkAll(alerts, reported, now), tickers2, later) ensures c.symbol !in reported {
      MarkAllEffect(alerts, reported, now, c.symbol);
    }
  }

  // ---------------------------------------------------------------------------
  // The scanner object

  class DailyFlipScanner {
    const cfg: Config
    /** The configured threshold divided by 100. */
    const flipThreshold: real
    /** Symbol to the instant (seconds) of its last alert. */
    var lastAlerts: map<string, int>
    /** What the cooldown file holds. */
    ghost var persisted: map<string, int>

    ghost predicate Valid()
      reads this
    {
      flipThreshold == StoredThreshold(cfg) && persisted == lastAlerts
    }

    /** `loaded` is what the cooldown file held at start-up (empty when missing or corrupt). */
    constructor (cfg: Config, loaded: map<string, int>)
      ensures this.cfg == cfg && lastAlerts == loaded && Valid()
    {
      this.cfg := cfg;
      flipThreshold := cfg.flipThreshold / 100.0;
      lastAlerts := loaded;
      persisted := loaded;
    }

    /** Suppressed until `cooldownHours` hours after the symbol's last alert. */
    predicate IsInCooldown(symbol: string, now: int)
      reads this
      ensures IsInCooldown(symbol, now) <==>
        (symbol in lastAlerts && now < lastAlerts[symbol] + cfg.cooldownHours * SecondsPerHour)
    {
      RollingSuppressed(lastAlerts, symbol, now, cfg.cooldownHours)
    }

    /** Overwrites the symbol's entry with `now` and writes the whole map through. */
    method MarkAlerted(symbol: string, now: int)
      requires Valid()
      modifies this
      ensures lastAlerts == old(lastAlerts)[symbol := now]
      ensures Valid()
    {
      lastAlerts := lastAlerts[symbol := now];
      persisted := lastAlerts;
    }

    /** The first loop of `scan`: filter the snapshot and compute each survivor's change;
        a zero open price raises, which ends the scan. */
    method CollectFlipPairs(ts: seq<Ticker>) returns (pairs: Option<seq<Pair>>)
      ensures pairs == FlipSurvivors(ts, cfg.minVolume24h)
    {
      var allPairs: seq<Pair> := [];
      var i := 0;
      while i < |ts|
        invariant 0 <= i <= |ts|
        invariant FlipSurvivors(ts[..i], cfg.minVolume24h) == Some(allPairs)
      {
        assert ts[..i + 1][..i] == ts[..i];
        var item := ts[i];
        if IsUsdtPair(item.symbol) {
          var volume := QuoteVolume(item);
          if volume >= cfg.minVolume24h {
            var lastPrice := item.lastPrice;
            var openPrice := item.prevPrice24h.GetOr(lastPrice);
            if openPrice == 0.0 {
              FlipSurvivorsFailSticky(ts, cfg.minVolume24h, i + 1);
              return None;
            }
            var changePct := (lastPrice - openPrice) / openPrice * 100.0;
            allPairs := allPairs + [Pair(item.symbol, lastPrice, changePct, volume)];
          }
        }
        i := i + 1;
      }
      assert ts[..|ts|] == ts;
      pairs := Some(allPairs);
    }

    /** The body of the second loop of `scan` for one pair: the proximity test, the flip
        type filter, then the cooldown check. */
    method CheckPair(pair: Pair, now: int) returns (coin: Option<FlipCoin>)
      requires Valid()
      ensures coin == FlipVerdicts(cfg, lastAlerts, now)(pair)
    {
      coin := None;
      var changePct := pair.changePct;
      if Abs(changePct) < flipThreshold * 100.0 {
        var direction := if changePct > 0.0 then GreenToRed else RedToGreen;
        if cfg.flipType == "both" || (cfg.flipType == "green_to_red" && changePct > 0.0)
           || (cfg.flipType == "red_to_green" && changePct < 0.0) {
          if !IsInCooldown(pair.symbol, now) {
            coin := Some(FlipCoin(pair.symbol, pair.price, changePct, direction));
          }
        }
      }
    }

    /** The second loop of `scan`: judge each analysed pair and append its flip. */
    method FindFlips(analysed: seq<Pair>, now: int) returns (found: seq<FlipCoin>)
      requires Valid()
      ensures found == FlipsFound(cfg, lastAlerts, now, analysed)
    {
      found := [];
      ghost var verdict := FlipVerdicts(cfg, lastAlerts, now);
      var i := 0;
      while i < |analysed|
        invariant 0 <= i <= |analysed|
        invariant found == Collect(analysed[..i], verdict)
      {
        var pair := analysed[i];
        var coin := CheckPair(pair, now);
        CollectNext(analysed, verdict, i, found, coin);
        if coin.Some? {
          found := found + [coin.value];
        }
        i := i + 1;
      }
      assert analysed[..|analysed|] == analysed;
    }

    /** The marking loop: `mark_alerted` on each symbol in turn. */
    method MarkBatch(symbols: seq<string>, now: int)
      requires Valid()
      modifies this
      ensures lastAlerts == MarkAll(old(lastAlerts), symbols, now)
      ensures Valid()
    {
      var j := 0;
      while j < |symbols|
        invariant 0 <= j <= |symbols|
        invariant Valid()
        invariant lastAlerts == MarkAll(old(lastAlerts), symbols[..j], now)
      {
        assert symbols[..j + 1][..j] == symbols[..j];
        MarkAlerted(symbols[j], now);
        j := j + 1;
      }
      assert symbols[..|symbols|] == symbols;
    }

    method Scan(tickers: Option<seq<Ticker>>, now: int) returns (found: seq<FlipCoin>)
      requires Valid()
      modifies this
      ensures Valid()
      ensures found == ScanResult(cfg, old(lastAlerts), tickers, now)
      ensures lastAlerts == MarkAll(old(lastAlerts), SymbolsOf(found, CoinSymbol), now)
    {
      if !cfg.enabled {
        return [];
      }
      if tickers.None? {
        return [];
      }
      var allPairs := CollectFlipPairs(tickers.value);
      if allPairs.None? {
        return [];
      }
      var ranked := RankByChange(allPairs.value);
      found := FindFlips(TopGainers(ranked) + TopLosers(ranked), now);
      if |found| > 0 {
        MarkBatch(SymbolsOf(found, CoinSymbol), now);
      }
    }
  }
}
