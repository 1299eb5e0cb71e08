/** The EMA touch scanner: on 30-minute candles, alerts on pairs trading within a
    threshold of their 60-period exponential moving average, at most once per pair
    per UTC day. */
module EmaTouch {
  import opened Market
  import opened Sorting
  import opened Cooldown

  /** Fewer candles than this and the pair gives no reading (the longest EMA is 223). */
  const MinKlines: nat := 223
  /** Only the first pairs of the filtered snapshot are analysed, to spare the API. */
  const MaxAnalysedPairs: nat := 50

  // ---------------------------------------------------------------------------
  // The EMA recurrence

  /** Left-to-right sum, as Python's `sum`. */
  function Sum(s: seq<real>): real {
    if s == [] then 0.0 else Sum(s[..|s| - 1]) + s[|s| - 1]
  }

  function Mean(s: seq<real>): real
    requires |s| > 0
  {
    Sum(s) / (|s| as real)
  }

  /** The smoothing factor `2 / (period + 1)`. */
  function Multiplier(period: nat): (m: real)
    requires period >= 1
    ensures 0.0 < m <= 1.0
  {
    var d := (period + 1) as real;
    assert d >= 2.0;
    assert (2.0 / d) * d == 2.0;
    2.0 / d
  }

  /** The EMA after the first `k` prices: seeded with the mean of the first `period`
      prices, then one recurrence step per later price. */
  function EmaAt(prices: seq<real>, period: nat, k: nat): real
    requires 1 <= period <= k <= |prices|
    decreases k
  {
    if k == period then Mean(prices[..period])
    else
      var prev := EmaAt(prices, period, k - 1);
      (prices[k - 1] - prev) * Multiplier(period) + prev
  }

  /** The EMA of the whole series, absent when the series is shorter than the period. */
  function Ema(prices: seq<real>, period: nat): (r: Option<real>)
    requires period >= 1
    ensures r.None? <==> |prices| < period
  {
    if |prices| < period then None else Some(EmaAt(prices, period, |prices|))
  }

  /** The inner `calculate_ema`: the seed, then a loop over the remaining prices. */
  method CalculateEma(prices: seq<real>, period: nat) returns (r: Option<real>)
    requires period >= 1
    ensures r == Ema(prices, period)
    ensures r.None? <==> |prices| < period
  {
    if |prices| < period {
      return None;
    }
    var multiplier := 2.0 / ((period + 1) as real);
    var ema := Sum(prices[..period]) / (period as real);
    var i := period;
    while i < |prices|
      invariant period <= i <= |prices|
      invariant ema == EmaAt(prices, period, i)
    {
      ema := (prices[i] - ema) * multiplier + ema;
      i := i + 1;
    }
    return Some(ema);
  }

  /** With exactly `period` prices the EMA is their mean. */
  lemma EmaOfExactlyPeriod(prices: seq<real>, period: nat)
    requires period >= 1 && |prices| == period
    ensures Ema(prices, period) == Some(Mean(prices))
  {
    assert prices[..period] == prices;
  }

  lemma {:induction false} SumOfConstant(s: seq<real>, c: real)
    requires forall i :: 0 <= i < |s| ==> s[i] == c
    ensures Sum(s) == (|s| as real) * c
  {
    if s != [] {
      SumOfConstant(s[..|s| - 1], c);
    }
  }

  lemma {:induction false} EmaAtOfConstant(prices: seq<real>, period: nat, k: nat, c: real)
    requires 1 <= period <= k <= |prices|
    requires forall i :: 0 <= i < |prices| ==> prices[i] == c
    ensures EmaAt(prices, period, k) == c
    decreases k
  {
    if k == period {
      SumOfConstant(prices[..period], c);
      var n := period as real;
      assert Sum(prices[..period]) == n * c;
      assert n >= 1.0;
      var q := (n * c) / n;
      assert q * n == n * c;
      assert (q - c) * n == 0.0;
    } else {
      EmaAtOfConstant(prices, period, k - 1, c);
    }
  }

  /** A constant price series is a fixed point: its EMA is that price. */
  lemma EmaOfConstantSeries(prices: seq<real>, period: nat, c: real)
    requires 1 <= period <= |prices|
    requires forall i :: 0 <= i < |prices| ==> prices[i] == c
    ensures Ema(prices, period) == Some(c)
  {
    EmaAtOfConstant(prices, period, |prices|, c);
  }

  lemma {:induction false} SumBounds(s: seq<real>, lo: real, hi: real)
    requires forall i :: 0 <= i < |s| ==> lo <= s[i] <= hi
    ensures (|s| as real) * lo <= Sum(s) <= (|s| as real) * hi
  {
    if s != [] {
      var n := |s| as real;
      SumBounds(s[..|s| - 1], lo, hi);
      assert n * lo == (n - 1.0) * lo + lo;
      assert n * hi == (n - 1.0) * hi + hi;
    }
  }

  /** A product of non-negative reals is non-negative, stated on plain variables so that
      the solver meets this nonlinear fact in isolation. */
  lemma ProductNonNegative(a: real, b: real)
    requires a >= 0.0 && b >= 0.0
    ensures a * b >= 0.0
  {
  }

  lemma ConvexStep(prev: real, price: real, m: real, lo: real, hi: real)
    requires 0.0 < m <= 1.0 && lo <= prev <= hi && lo <= price <= hi
    ensures lo <= (price - prev) * m + prev <= hi
  {
    assert (price - prev) * m + prev == m * price + (1.0 - m) * prev;
    ProductNonNegative(m, price - lo);
    ProductNonNegative(1.0 - m, prev - lo);
    ProductNonNegative(m, hi - price);
    ProductNonNegative(1.0 - m, hi - prev);
  }

  lemma MeanWithin(s: seq<real>, lo: real, hi: real)
    requires |s| > 0
    requires forall i :: 0 <= i < |s| ==> lo <= s[i] <= hi
    ensures lo <= Mean(s) <= hi
  {
    var n := |s| as real;
    var total := Sum(s);
    SumBounds(s, lo, hi);
    assert total / n * n == total;
    assert (total / n - lo) * n == total - n * lo;
    assert (hi - total / n) * n == n * hi - total;
  }

  lemma {:induction false} EmaAtWithin(prices: seq<real>, period: nat, k: nat, lo: real, hi: real)
    requires 1 <= period <= k <= |prices|
    requires forall i :: 0 <= i < |prices| ==> lo <= prices[i] <= hi
    ensures lo <= EmaAt(prices, period, k) <= hi
    decreases k
  {
    if k == period {
      MeanWithin(prices[..period], lo, hi);
    } else {
      EmaAtWithin(prices, period, k - 1, lo, hi);
      ConvexStep(EmaAt(prices, period, k - 1), prices[k - 1], Multiplier(period), lo, hi);
    }
  }

  /** The EMA is an average: it never leaves the range of the prices it is taken over. */
  lemma EmaWithinPriceRange(prices: seq<real>, period: nat, lo: real, hi: real)
    requires 1 <= period <= |prices|
    requires forall i :: 0 <= i < |prices| ==> lo <= prices[i] <= hi
    ensures Ema(prices, period).Some?
    ensures lo <= Ema(prices, period).value <= hi
  {
    EmaAtWithin(prices, period, |prices|, lo, hi);
  }

  // ---------------------------------------------------------------------------
  // One pair's reading

  datatype EmaReading = EmaReading(
    currentPrice: real, ema60: real, ema5: real, ema10: real, ema223: real, distancePct: real)

  function OpenTimeKey(k: Kline): real { k.openTime as real }

  function Closes(klines: seq<Kline>): (r: seq<real>)
    ensures |r| == |klines|
    ensures forall i :: 0 <= i < |klines| ==> r[i] == klines[i].close
  {
    seq(|klines|, i requires 0 <= i < |klines| => klines[i].close)
  }

  /** What `fetch_klines_and_calculate_ema` makes of the exchange's answer: nothing for a
      failed request, for fewer than 223 candles, or for a zero EMA 60 (the division
      by it fails); otherwise the EMAs of the closes in time order, the last close as
      the price, and its distance from the EMA 60 in percent. */
  function EmaReadingOf(response: Option<seq<Kline>>): (r: Option<EmaReading>)
    ensures r.Some? <==> (response.Some? && |response.value| >= MinKlines
      && EmaAt(Closes(SortBy(response.value, OpenTimeKey)), 60, |response.value|) != 0.0)
    ensures r.Some? ==> r.value.distancePct >= 0.0
    ensures r.Some? ==>
      var closes := Closes(SortBy(response.value, OpenTimeKey));
      |closes| >= MinKlines && Ema(closes, 60) == Some(r.value.ema60)
      && r.value.currentPrice == closes[|closes| - 1]
  {
    match response
    case None => None
    case Some(klines) =>
      if |klines| < MinKlines then None
      else
        var closes := Closes(SortBy(klines, OpenTimeKey));
        var ema60 := EmaAt(closes, 60, |closes|);
        if ema60 == 0.0 then None
        else
          var price := closes[|closes| - 1];
          Some(EmaReading(price, ema60, EmaAt(closes, 5, |closes|), EmaAt(closes, 10, |closes|),
                          EmaAt(closes, 223, |closes|), Abs((price - ema60) / ema60 * 100.0)))
  }

  /** The reading's price is the close of a latest candle of the series. */
  lemma EmaReadingUsesLatestClose(response: Option<seq<Kline>>)
    requires EmaReadingOf(response).Some?
    ensures exists k :: (k in response.value && k.close == EmaReadingOf(response).value.currentPrice
      && forall k' :: k' in response.value ==> k'.openTime <= k.openTime)
  {
    var klines := response.value;
    var sorted := SortBy(klines, OpenTimeKey);
    var last := sorted[|sorted| - 1];
    assert last in multiset(sorted);
    forall k' | k' in klines ensures k'.openTime <= last.openTime {
      assert k' in multiset(sorted);
      var j :| 0 <= j < |sorted| && sorted[j] == k';
      assert j == |sorted| - 1 || OpenTimeKey(sorted[j]) <= OpenTimeKey(last);
    }
  }

  /** When every candle closes at the same non-zero price, the pair sits on its EMA 60:
      the reading exists, its EMA 60 is that price and its distance is zero. */
  lemma FlatSeriesSitsOnItsEma(response: Option<seq<Kline>>, c: real)
    requires response.Some? && |response.value| >= MinKlines && c != 0.0
    requires forall k :: k in response.value ==> k.close == c
    ensures EmaReadingOf(response).Some?
    ensures EmaReadingOf(response).value.ema60 == c && EmaReadingOf(response).value.distancePct == 0.0
  {
    var sorted := SortBy(response.value, OpenTimeKey);
    var closes := Closes(sorted);
    assert |sorted| == |response.value| by {
      assert |multiset(sorted)| == |multiset(response.value)|;
    }
    forall i | 0 <= i < |closes| ensures closes[i] == c {
      assert sorted[i] in multiset(sorted);
    }
    EmaAtOfConstant(closes, 60, |closes|, c);
  }

  /** The percentage distance of a price from its EMA 60. */
  lemma DistanceIsRelativeGap(response: Option<seq<Kline>>)
    requires EmaReadingOf(response).Some?
    ensures var e := EmaReadingOf(response).value;
      e.distancePct == Abs((e.currentPrice - e.ema60) / e.ema60 * 100.0)
  {
  }

  /** `fetch_klines_and_calculate_ema` after the request: the length guard, the sort by
      open time, the four EMAs and the distance. */
  method FetchKlinesAndCalculateEma(response: Option<seq<Kline>>) returns (r: Option<EmaReading>)
    ensures r == EmaReadingOf(response)
  {
    if response.None? {
      return None;
    }
    var klines := response.value;
    if |klines| < MinKlines {
      return None;
    }
    klines := SortBy(klines, OpenTimeKey);
    var closes := Closes(klines);
    var ema5 := CalculateEma(closes, 5);
    var ema10 := CalculateEma(closes, 10);
    var ema60 := CalculateEma(closes, 60);
    var ema223 := CalculateEma(closes, 223);
    if ema60.value == 0.0 {
      return None;
    }
    var currentPrice := closes[|closes| - 1];
    var distancePct := Abs((currentPrice - ema60.value) / ema60.value * 100.0);
    return Some(EmaReading(currentPrice, ema60.value, ema5.value, ema10.value, ema223.value, distancePct));
  }

  // ---------------------------------------------------------------------------
  // The scan

  datatype Config = Config(enabled: bool, emaTouchThreshold: real, minVolume24h: real, maxCoinsPerAlert: int)

  datatype Approach = FromAbove | FromBelow

  datatype Touch = Touch(symbol: string, price: real, ema60: real, distancePct: real, approach: Approach, volume24h: real)

  function TouchSymbol(t: Touch): string { t.symbol }

  /** This scanner's filter: a USDT pair with strictly more than `minVolume` quote volume. */
  predicate Liquid(t: Ticker, minVolume: real) {
    IsUsdtPair(t.symbol) && QuoteVolume(t) > minVolume
  }

  /** The liquid pairs, in snapshot order. */
  function LiquidPairs(ts: seq<Ticker>, minVolume: real): (r: seq<Ticker>)
    ensures |r| <= |ts|
    ensures forall t :: t in r <==> t in ts && Liquid(t, minVolume)
  {
    if ts == [] then []
    else
      var rest := LiquidPairs(ts[..|ts| - 1], minVolume);
      assert forall t :: t in ts <==> t in ts[..|ts| - 1] || t == ts[|ts| - 1];
      if Liquid(ts[|ts| - 1], minVolume) then rest + [ts[|ts| - 1]] else rest
  }

  /** One pair's verdict: a touch when a reading exists, it lies strictly within the
      threshold, and the pair has not yet alerted today. */
  function EvalTouch(cfg: Config, alerts: map<string, int>, now: int, pair: Ticker, reading: Option<EmaReading>): (r: Option<Touch>)
    ensures r.Some? <==> (reading.Some? && reading.value.distancePct < cfg.emaTouchThreshold
      && !DayAlignedSuppressed(alerts, pair.symbol, now))
    ensures r.Some? ==> (r.value.symbol == pair.symbol && r.value.price == reading.value.currentPrice
      && r.value.distancePct == reading.value.distancePct && r.value.ema60 == reading.value.ema60
      && (r.value.approach == FromAbove <==> reading.value.currentPrice > reading.value.ema60))
  {
    match reading
    case None => None
    case Some(e) =>
      if e.distancePct < cfg.emaTouchThreshold && !DayAlignedSuppressed(alerts, pair.symbol, now) then
        Some(Touch(pair.symbol, e.currentPrice, e.ema60, e.distancePct,
                   if e.currentPrice > e.ema60 then FromAbove else FromBelow, pair.volume24h.GetOr(0.0)))
      else None
  }

  /** The verdict `scan` reaches on one pair of the batch. */
  function TouchVerdicts(cfg: Config, alerts: map<string, int>, now: int,
                         fetch: string -> Option<seq<Kline>>): Ticker -> Option<Touch>
  {
    (pair: Ticker) => EvalTouch(cfg, alerts, now, pair, EmaReadingOf(fetch(pair.symbol)))
  }

  /** The touches found over `batch`, in batch order: each within the threshold and out
      of cooldown, and every touch a pair of the batch yields is among them. */
  function TouchesFound(cfg: Config, alerts: map<string, int>, now: int,
                        fetch: string -> Option<seq<Kline>>, batch: seq<Ticker>): (r: seq<Touch>)
    ensures |r| <= |batch|
    ensures forall i :: 0 <= i < |r| ==>
      r[i].distancePct < cfg.emaTouchThreshold && !DayAlignedSuppressed(alerts, r[i].symbol, now)
      && exists t :: t in batch && t.symbol == r[i].symbol
    ensures forall t :: t in batch && TouchVerdicts(cfg, alerts, now, fetch)(t).Some? ==>
      TouchVerdicts(cfg, alerts, now, fetch)(t).value in r
  {
    var f := TouchVerdicts(cfg, alerts, now, fetch);
    var r := Collect(batch, f);
    forall i | 0 <= i < |r|
      ensures r[i].distancePct < cfg.emaTouchThreshold && !DayAlignedSuppressed(alerts, r[i].symbol, now)
      ensures exists t :: t in batch && t.symbol == r[i].symbol
    {
      assert r[i] in r;
      CollectSound(batch, f, r[i]);
      var t :| t in batch && f(t) == Some(r[i]);
      assert EvalTouch(cfg, alerts, now, t, EmaReadingOf(fetch(t.symbol))) == Some(r[i]);
    }
    forall t | t in batch && f(t).Some? ensures f(t).value in r {
      CollectComplete(batch, f, t);
    }
    r
  }

  /** The pairs a scan fetches candles for: the first 50 liquid pairs of the snapshot. */
  function ScanBatch(cfg: Config, ts: seq<Ticker>): (r: seq<Ticker>)
    ensures r <= LiquidPairs(ts, cfg.minVolume24h)
    ensures |r| <= MaxAnalysedPairs
    ensures |LiquidPairs(ts, cfg.minVolume24h)| >= MaxAnalysedPairs ==> |r| == MaxAnalysedPairs
    ensures forall t :: t in r ==> t in ts && Liquid(t, cfg.minVolume24h)
  {
    var r := Take(LiquidPairs(ts, cfg.minVolume24h), MaxAnalysedPairs);
    assert forall t :: t in r ==> t in LiquidPairs(ts, cfg.minVolume24h);
    r
  }

  /** The list `scan` returns: empty when disabled or when the snapshot request fails;
      otherwise the leading touches found among the first 50 liquid pairs, as many as the
      per-alert maximum allows. */
  function ScanResult(cfg: Config, alerts: map<string, int>, tickers: Option<seq<Ticker>>,
                      fetch: string -> Option<seq<Kline>>, now: int): (r: seq<Touch>)
    ensures !cfg.enabled || tickers.None? ==> r == []
    ensures |r| <= MaxAnalysedPairs
    ensures cfg.maxCoinsPerAlert >= 0 ==> |r| <= cfg.maxCoinsPerAlert
    ensures cfg.enabled && tickers.Some? ==>
      var found := TouchesFound(cfg, alerts, now, fetch, ScanBatch(cfg, tickers.value));
      r <= found
      && (cfg.maxCoinsPerAlert >= 0 ==>
            |r| == if |found| < cfg.maxCoinsPerAlert then |found| else cfg.maxCoinsPerAlert)
    ensures forall i :: 0 <= i < |r| ==>
      r[i].distancePct < cfg.emaTouchThreshold && !DayAlignedSuppressed(alerts, r[i].symbol, now)
      && exists t :: t in ScanBatch(cfg, tickers.value) && t in tickers.value && Liquid(t, cfg.minVolume24h)
                     && t.symbol == r[i].symbol
  {
    if !cfg.enabled || tickers.None? then []
    else
      var batch := ScanBatch(cfg, tickers.value);
      var found := TouchesFound(cfg, alerts, now, fetch, batch);
      var r := Take(found, cfg.maxCoinsPerAlert);
      assert forall i :: 0 <= i < |r| ==> r[i] == found[i];
      r
  }

  /** A pair among the first 50 liquid pairs that qualifies for a touch is reported,
      unless the report is already full of touches found before it. */
  lemma QualifyingTouchIsReported(cfg: Config, alerts: map<string, int>, tickers: seq<Ticker>,
                                  fetch: string -> Option<seq<Kline>>, now: int, t: Ticker)
    requires cfg.enabled
    requires t in ScanBatch(cfg, tickers) && TouchVerdicts(cfg, alerts, now, fetch)(t).Some?
    ensures var r := ScanResult(cfg, alerts, Some(tickers), fetch, now);
      cfg.maxCoinsPerAlert >= 0 ==>
        TouchVerdicts(cfg, alerts, now, fetch)(t).value in r || |r| == cfg.maxCoinsPerAlert
  {
    var found := TouchesFound(cfg, alerts, now, fetch, ScanBatch(cfg, tickers));
    var r := ScanResult(cfg, alerts, Some(tickers), fetch, now);
    if cfg.maxCoinsPerAlert >= 0 && |found| <= cfg.maxCoinsPerAlert {
      assert r == found;
    }
  }

  /** After a scan no reported pair can alert again for the rest of that UTC day, and the
      pairs that were found but cut off are not marked: their cooldown is as before at
      every instant. */
  lemma ScanMarksExactlyTheReported(cfg: Config, alerts: map<string, int>, tickers: Option<seq<Ticker>>,
                                    fetch: string -> Option<seq<Kline>>, now: int, x: string)
    ensures var reported := SymbolsOf(ScanResult(cfg, alerts, tickers, fetch, now), TouchSymbol);
      var after := MarkAll(alerts, reported, now);
      (x in reported ==> forall t :: DayStart(t) == DayStart(now) ==> DayAlignedSuppressed(after, x, t))
      && (x !in reported ==> forall t :: DayAlignedSuppressed(after, x, t) == DayAlignedSuppressed(alerts, x, t))
  {
    var reported := SymbolsOf(ScanResult(cfg, alerts, tickers, fetch, now), TouchSymbol);
    MarkAllEffect(alerts, reported, now, x);
  }

  /** Cooldown across scans: with the store marked after one scan, a second scan later the
      same UTC day reports none of the symbols the first one reported. */
  lemma NoRepeatWithinDay(cfg: Config, alerts: map<string, int>, tickers: Option<seq<Ticker>>,
                          fetch: string -> Option<seq<Kline>>, now: int,
                          tickers2: Option<seq<Ticker>>, fetch2: string -> Option<seq<Kline>>, later: int)
    requires DayStart(later) == DayStart(now)
    ensures var reported := SymbolsOf(ScanResult(cfg, alerts, tickers, fetch, now), TouchSymbol);
      forall c :: c in ScanResult(cfg, MarkAll(alerts, reported, now), tickers2, fetch2, later) ==>
        c.symbol !in reported
  {
    var reported := SymbolsOf(ScanResult(cfg, alerts, tickers, fetch, now), TouchSymbol);
    var second := ScanResult(cfg, MarkAll(alerts, reported, now), tickers2, fetch2, later);
    forall c | c in second ensures c.symbol !in reported {
      var i :| 0 <= i < |second| && second[i] == c;
      MarkAllEffect(alerts, reported, now, c.symbol);
    }
  }

  // ---------------------------------------------------------------------------
  // The scanner object

  class EmaScanner {
    const cfg: Config
    /** Symbol to the instant (UTC seconds) of its last alert. */
    var lastAlerts: map<string, int>
    /** What the cooldown file holds. */
    ghost var persisted: map<string, int>

    /** The cooldown file is written through on every change. */
    ghost predicate Valid()
      reads this
    {
      persisted == lastAlerts
    }

    /** `loaded` is what the cooldown file held at start-up (empty when missing or corrupt). */
    constructor (cfg: Config, loaded: map<string, int>)
      ensures this.cfg == cfg && lastAlerts == loaded && Valid()
    {
      this.cfg := cfg;
      lastAlerts := loaded;
      persisted := loaded;
    }

    /** Suppressed only when the symbol already alerted on the current UTC day. */
    predicate IsInCooldown(symbol: string, now: int)
      reads this
      ensures IsInCooldown(symbol, now) ==> symbol in lastAlerts
      ensures symbol in lastAlerts ==>
        (IsInCooldown(symbol, now) <==> DayStart(now) <= DayStart(lastAlerts[symbol]))
    {
      DayAlignedSuppressed(lastAlerts, symbol, now)
    }

    /** Overwrites the symbol's entry with `now` and writes the whole map through. */
    method MarkAlerted(symbol: string, now: int)
      modifies this
      ensures lastAlerts == old(lastAlerts)[symbol := now]
      ensures Valid()
    {
      lastAlerts := lastAlerts[symbol := now];
      persisted := lastAlerts;
    }

    /** The body of the loop of `scan` for one pair: fetch the candles, read the EMA,
        test the distance, then check the cooldown. */
    method CheckPair(pair: Ticker, fetch: string -> Option<seq<Kline>>, now: int) returns (touch: Option<Touch>)
      ensures touch == TouchVerdicts(cfg, lastAlerts, now, fetch)(pair)
    {
      touch := None;
      var emaData := FetchKlinesAndCalculateEma(fetch(pair.symbol));
      if emaData.Some? && emaData.value.distancePct < cfg.emaTouchThreshold {
        if !IsInCooldown(pair.symbol, now) {
          var approach := if emaData.value.currentPrice > emaData.value.ema60 then FromAbove else FromBelow;
          touch := Some(Touch(pair.symbol, emaData.value.currentPrice, emaData.value.ema60,
                              emaData.value.distancePct, approach, pair.volume24h.GetOr(0.0)));
        }
      }
    }

    /** The loop of `scan` over the batch: judge each pair and append its touch. */
    method FindTouches(batch: seq<Ticker>, fetch: string -> Option<seq<Kline>>, now: int) returns (found: seq<Touch>)
      ensures found == TouchesFound(cfg, lastAlerts, now, fetch, batch)
    {
      found := [];
      ghost var verdict := TouchVerdicts(cfg, lastAlerts, now, fetch);
      var i := 0;
      while i < |batch|
        invariant 0 <= i <= |batch|
        invariant found == Collect(batch[..i], verdict)
      {
        var touch := CheckPair(batch[i], fetch, now);
        CollectNext(batch, verdict, i, found, touch);
        if touch.Some? {
          found := found + [touch.value];
        }
        i := i + 1;
      }
      assert batch[..|batch|] == batch;
    }

    /** The marking loop: `mark_alerted` on each symbol in turn. */
    method MarkBatch(symbols: seq<string>, now: int)
      requires Valid()
      modifies this
      ensures lastAlerts == MarkAll(old(lastAlerts), symbols, now)
      ensures Valid()
    {
      var j := 0;
      while j < |symbols|
        invariant 0 <= j <= |symbols|
        invariant Valid()
        invariant lastAlerts == MarkAll(old(lastAlerts), symbols[..j], now)
      {
        assert symbols[..j + 1][..j] == symbols[..j];
        MarkAlerted(symbols[j], now);
        j := j + 1;
      }
      assert symbols[..|symbols|] == symbols;
    }

    method Scan(tickers: Option<seq<Ticker>>, fetch: string -> Option<seq<Kline>>, now: int) returns (found: seq<Touch>)
      requires Valid()
      modifies this
      ensures Valid()
      ensures found == ScanResult(cfg, old(lastAlerts), tickers, fetch, now)
      ensures lastAlerts == MarkAll(old(lastAlerts), SymbolsOf(found, TouchSymbol), now)
    {
      if !cfg.enabled || tickers.None? {
        return [];
      }
      var pairs := LiquidPairs(tickers.value, cfg.minVolume24h);
      found := FindTouches(Take(pairs, MaxAnalysedPairs), fetch, now);
      assert Take(pairs, MaxAnalysedPairs) == ScanBatch(cfg, tickers.value);
      found := Take(found, cfg.maxCoinsPerAlert);
      if |found| > 0 {
        MarkBatch(SymbolsOf(found, TouchSymbol), now);
      }
    }
  }
}
