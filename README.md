# Crypto scanner: scanning and alert deduplication, in Dafny

This project models the scanning logic of the crypto scanner add-on. It covers four
strategy scanners and the gainer/loser ranking behind the ATH/ATL status endpoint of
the web interface. Each scanner takes a linear-contract ticker snapshot from the
exchange, keeps the liquid USDT pairs and judges some of them. It reports the pairs
that pass its test and are not in cooldown, cuts the report to a per-alert maximum
(except the daily flip scanner) and marks the reported symbols in its cooldown store.

- **EMA touch** (`EmaTouch`, `ema_touch.dfy`): on 30-minute candles, the pairs whose
  last close lies strictly within a threshold of their 60-period EMA. The EMA is seeded
  with the simple mean and then follows `ema := (price - ema) * 2/(period+1) + ema`.
  Its cooldown is aligned to the UTC day: one alert per pair per day (`EmaTouch.NoRepeatWithinDay`).
- **ATH/ATL** (`AthAtl`, `ath_atl.dfy`): among the top 20 gainers and top 20 losers of
  the day, the pairs near the highest high or the lowest low of their daily history.
  There are two rolling cooldown stores, one for ATH alerts and one for ATL alerts.
- **Volume** (`VolumeScan`, `volume.dfy`): the pairs that rose more than the gainer
  threshold or fell more than the loser threshold in 24h. Gainers are ranked by rise
  and losers by fall. There are two rolling cooldown stores; the volume-spike list is
  always empty.
- **Daily flip** (`DailyFlip`, `daily_flip.dfy`): among the top 20 gainers and top 20
  losers, the pairs whose change since the price 24h earlier is close enough to zero
  that the daily candle may change colour. A flip-type setting filters the direction.
  There is one rolling cooldown store, and the report is never cut.
- **Status endpoint** (`AthAtlStatus`, `status.dfy`): the same filter and ranking. It
  returns the monitored pairs, the leading 10 gainers, the leading 10 losers (most
  negative first) and the number of pairs that passed the filter.

Shared modules:
- `Market` (`market.dfy`): tickers, candles, Python's slice and reverse, and `Collect`.
  `Collect` is the "append each pair's verdict" loop shape every scan uses.
- `Sorting` (`sorting.dfy`): a stable sort by a real key, standing in for Python's
  `list.sort`.
- `Cooldown` (`cooldown.dfy`): the two cooldown policies, and `MarkAll`, which is
  `mark_alerted` applied to a batch of symbols.
- `Universe` (`universe.dfy`): the liquidity filter, the ranking and the top-20 cut.

## How the model is built

Each scanner is a class. Its configuration is an immutable `cfg` value and each
cooldown store is a `map<string, int>` field from symbol to the instant of the last
alert, in seconds. A ghost copy of each map stands for the cooldown file, which is
written through on every change. `Valid()` says the copy equals the map.

Every step of a scan is a method with the same loops as the source. Each method is
proved equal to a function over values; for example, `Scan` ensures its result is
`ScanResult(cfg, old(store), ...)` and its new store is `MarkAll(old(store), reported
symbols, now)`. The properties the scanners promise are then proved about those
functions.

The exchange is a parameter:
- the ticker snapshot is an `Option<seq<Ticker>>`, where None is a failed request or a
  non-zero return code;
- the candle request is a function from symbol (and limit) to `Option<seq<Kline>>`.

Prices are `real`. A division by zero in the source raises inside a `try`; the model
makes that path explicit:
- a zero EMA 60 gives no reading;
- a zero ATH or ATL gives no extremes;
- a zero open price in the daily flip scan makes the whole scan return `[]`.

Where the written specification and the code disagree, the model follows the code:
- **Ties.** The ranking breaks ties by snapshot order, because Python's sort is stable
  (`Universe.RankByChangeStable`). It does not break them by symbol order.
- **Losers and reversal.** The top losers are the last 20 of the ranking only when at
  least 20 pairs survive; otherwise the list is empty. Only the status endpoint
  reverses them.
- **Overlap.** With 20 to 39 survivors, one pair is both a top gainer and a top loser.
  It is then analysed twice, and the ATH/ATL and daily flip scanners can report it
  twice (`AthAtl.OverlappingPairFoundTwice`, `DailyFlip.OverlappingPairReportedTwice`).
  With distinct snapshot symbols, neither list repeats a symbol (`Universe.SelectionDistinct`).
- **ATL test.** The ATL test is `distance >= -threshold`. It admits every pair priced at
  or above its low, however far above (`AthAtl.AtlReportsPairFarAboveTheLow`).
- **Liquidity filter.** The EMA scanner's filter is strict (`>`); the other scanners use
  `>=`.

## Model

Paths are relative to the repository root.

| member | source | states |
|---|---|---|
| Market.Take | crypto_scanner_pro/rootfs/app/scanners/ema_touch.py:243 | Python's `s[:n]`: a prefix of `s`; exactly `n` long when `0 <= n <= len(s)`, all of `s` when `n >= len(s)`, counted from the end when `n` is negative |
| Market.Reverse | crypto_scanner_pro/rootfs/app/app.py:328 | element `i` of the reversed list is element `len-1-i` of the original |
| Market.ReverseMultiset | crypto_scanner_pro/rootfs/app/app.py:328 | reversing neither adds nor drops an element |
| Sorting.SortBy | crypto_scanner_pro/rootfs/app/scanners/ath_atl_scanner.py:230 | the sort returns a permutation of its input ordered by key |
| Sorting.SortByStable | crypto_scanner_pro/rootfs/app/scanners/ath_atl_scanner.py:230 | the sort is stable: the elements with any one key keep their input order |
| Cooldown.RollingWindowBounds | crypto_scanner_pro/rootfs/app/scanners/ath_atl_scanner.py:84-102 | a symbol never alerted is free; one alerted at `last` is suppressed exactly while `now < last + cooldown_hours`, so it is free again at exactly `cooldown_hours` |
| Cooldown.DayStart | crypto_scanner_pro/rootfs/app/scanners/ema_touch.py:79-80 | midnight UTC of the day holding `t`: a multiple of a day, at most `t` and less than a day before it |
| Cooldown.DayStartUnique | crypto_scanner_pro/rootfs/app/scanners/ema_touch.py:79-80 | that midnight is the only multiple of a day in the day holding `t` |
| Cooldown.DayAlignedExamples | crypto_scanner_pro/rootfs/app/scanners/ema_touch.py:70-89 | an alert suppresses a check one minute later on the same UTC day, and no longer suppresses one minute into the next day |
| Cooldown.DayAlignedExpiresWithinADay | crypto_scanner_pro/rootfs/app/scanners/ema_touch.py:82-85 | an alert a full day or more ago never suppresses |
| Cooldown.MarkAllEffect | crypto_scanner_pro/rootfs/app/scanners/volume.py:162-166 | marking a batch sets each marked symbol's entry to `now` and leaves every other entry, present or absent, as it was |
| Cooldown.MarkedIsRollingSuppressed | crypto_scanner_pro/rootfs/app/scanners/volume.py:63-90 | a symbol just marked is in rolling cooldown at every instant from the marking until the window closes |
| Cooldown.MarkedIsDaySuppressed | crypto_scanner_pro/rootfs/app/scanners/ema_touch.py:70-94 | a symbol just marked is in day-aligned cooldown at every instant of that UTC day |
| Universe.Survivors | crypto_scanner_pro/rootfs/app/scanners/ath_atl_scanner.py:207-225 | every survivor is a USDT pair with quote volume at least the minimum, and there are no more survivors than tickers |
| Universe.SurvivorsExactly | crypto_scanner_pro/rootfs/app/scanners/ath_atl_scanner.py:209-225 | a pair survives if and only if some eligible ticker of the snapshot produced it |
| Universe.CollectPairs | crypto_scanner_pro/rootfs/app/scanners/ath_atl_scanner.py:207-225 | the filtering loop returns exactly the survivors, in snapshot order |
| Universe.RankByChange | crypto_scanner_pro/rootfs/app/scanners/ath_atl_scanner.py:230 | the ranking is a permutation of the survivors in non-increasing 24h change |
| Universe.RankByChangeStable | crypto_scanner_pro/rootfs/app/scanners/ath_atl_scanner.py:230 | pairs with equal change keep their snapshot order |
| Universe.TopGainers | crypto_scanner_pro/rootfs/app/scanners/ath_atl_scanner.py:233 | the first `min(20, n)` pairs of the ranking |
| Universe.TopLosers | crypto_scanner_pro/rootfs/app/scanners/ath_atl_scanner.py:234 | the last 20 pairs of the ranking when at least 20 survive, otherwise none |
| Universe.Analysed | crypto_scanner_pro/rootfs/app/scanners/ath_atl_scanner.py:237 | at most 40 pairs, exactly 40 once 20 survive, all taken from the ranking |
| Universe.TopListsAreExtremes | crypto_scanner_pro/rootfs/app/scanners/ath_atl_scanner.py:230-234 | every top gainer changed at least as much as every pair after it in the ranking, and every pair before the top losers at least as much as every top loser |
| Universe.GainersLosersOverlap | crypto_scanner_pro/rootfs/app/scanners/ath_atl_scanner.py:233-237 | with 20 to 39 survivors the pair ranked 20th from the bottom is in both lists, and the analysed list holds it at two positions |
| Universe.OverlapCollectedTwice | crypto_scanner_pro/rootfs/app/scanners/daily_flip.py:120-156 | with 20 to 39 survivors, a per-pair verdict that yields something on the shared pair appears twice among the verdicts collected over the analysed list |
| Universe.SelectionDistinct | crypto_scanner_pro/rootfs/app/scanners/ath_atl_scanner.py:233-237 | from a ranking with distinct symbols, neither list repeats a symbol, and neither does the analysed list once 40 or more survive |
| Universe.RankKeepsDistinct | crypto_scanner_pro/rootfs/app/scanners/ath_atl_scanner.py:230 | ranking a snapshot with distinct symbols keeps them distinct |
| EmaTouch.Multiplier | crypto_scanner_pro/rootfs/app/scanners/ema_touch.py:144 | the smoothing factor `2/(period+1)` lies in (0, 1] |
| EmaTouch.Ema | crypto_scanner_pro/rootfs/app/scanners/ema_touch.py:139-152 | no EMA exactly when the series is shorter than the period |
| EmaTouch.CalculateEma | crypto_scanner_pro/rootfs/app/scanners/ema_touch.py:139-152 | the loop (mean seed, then one recurrence step per later price) computes the EMA; None exactly for a series shorter than the period |
| EmaTouch.EmaOfExactlyPeriod | crypto_scanner_pro/rootfs/app/scanners/ema_touch.py:144-146 | with exactly `period` prices the EMA is their mean |
| EmaTouch.EmaOfConstantSeries | crypto_scanner_pro/rootfs/app/scanners/ema_touch.py:146-150 | a constant series is a fixed point: its EMA is that price |
| EmaTouch.EmaWithinPriceRange | crypto_scanner_pro/rootfs/app/scanners/ema_touch.py:146-150 | the EMA never leaves the range of the prices it is taken over |
| EmaTouch.Closes | crypto_scanner_pro/rootfs/app/scanners/ema_touch.py:134 | the closes of the candles, one per candle, in candle order |
| EmaTouch.EmaReadingOf | crypto_scanner_pro/rootfs/app/scanners/ema_touch.py:122-176 | a reading exists exactly when the request succeeded, returned at least 223 candles and the EMA 60 of the time-ordered closes is non-zero; its EMA 60 is the EMA 60 of those closes, its price is the last of them and its distance is non-negative |
| EmaTouch.FlatSeriesSitsOnItsEma | crypto_scanner_pro/rootfs/app/scanners/ema_touch.py:131-167 | when all of at least 223 candles close at one non-zero price, the reading exists, its EMA 60 is that price and its distance is zero |
| EmaTouch.EmaReadingUsesLatestClose | crypto_scanner_pro/rootfs/app/scanners/ema_touch.py:131-164 | the reading's price is the close of a candle whose open time is the latest of the series |
| EmaTouch.DistanceIsRelativeGap | crypto_scanner_pro/rootfs/app/scanners/ema_touch.py:167 | the reading's distance is the absolute gap between its price and its EMA 60, in percent of the EMA 60 |
| EmaTouch.FetchKlinesAndCalculateEma | crypto_scanner_pro/rootfs/app/scanners/ema_touch.py:122-176 | guard, sort by open time, four EMA loops and distance compute the reading |
| EmaTouch.LiquidPairs | crypto_scanner_pro/rootfs/app/scanners/ema_touch.py:200-202 | a ticker is kept if and only if it is a USDT pair with quote volume strictly above the minimum |
| EmaTouch.ScanBatch | crypto_scanner_pro/rootfs/app/scanners/ema_touch.py:200-209 | the batch analysed is a prefix of the liquid pairs, at most 50 of them and exactly 50 when at least 50 pairs are liquid |
| EmaTouch.EvalTouch | crypto_scanner_pro/rootfs/app/scanners/ema_touch.py:219-238 | a touch is found if and only if a reading exists, its distance is strictly below the threshold and the pair has not alerted this UTC day; approach is from above if and only if the price is above the EMA 60 |
| EmaTouch.TouchesFound | crypto_scanner_pro/rootfs/app/scanners/ema_touch.py:206-238 | every touch found is within the threshold, out of cooldown and belongs to a pair of the batch, and every pair of the batch whose verdict is a touch has that touch among them |
| EmaTouch.ScanResult | crypto_scanner_pro/rootfs/app/scanners/ema_touch.py:182-256 | empty when disabled or when the snapshot fails; otherwise a prefix of the touches found over the first 50 liquid pairs, as long as the per-alert maximum allows (all of them when fewer, exactly the maximum otherwise); each touch is of a pair in that batch, within the threshold and out of cooldown |
| EmaTouch.QualifyingTouchIsReported | crypto_scanner_pro/rootfs/app/scanners/ema_touch.py:209-243 | a pair among the first 50 liquid pairs that touches its EMA 60 out of cooldown is reported, unless the report is already full at the per-alert maximum |
| EmaTouch.ScanMarksExactlyTheReported | crypto_scanner_pro/rootfs/app/scanners/ema_touch.py:243-250 | after a scan every reported pair is in cooldown at every instant of that UTC day, and every other pair, found but cut off included, keeps its old cooldown state at every instant |
| EmaTouch.NoRepeatWithinDay | crypto_scanner_pro/rootfs/app/scanners/ema_touch.py:225-250 | after marking, a second scan on the same UTC day reports none of the symbols the first scan reported |
| EmaTouch.EmaScanner.constructor | crypto_scanner_pro/rootfs/app/scanners/ema_touch.py:22-44 | the store starts as the loaded cooldown file |
| EmaTouch.EmaScanner.IsInCooldown | crypto_scanner_pro/rootfs/app/scanners/ema_touch.py:70-89 | a symbol never alerted is free; otherwise it is suppressed exactly while today's UTC midnight is not after the midnight of its last alert |
| EmaTouch.EmaScanner.MarkAlerted | crypto_scanner_pro/rootfs/app/scanners/ema_touch.py:91-94 | overwrites only that symbol's entry with `now` and writes the store through |
| EmaTouch.EmaScanner.CheckPair | crypto_scanner_pro/rootfs/app/scanners/ema_touch.py:217-238 | the loop body returns the pair's verdict |
| EmaTouch.EmaScanner.FindTouches | crypto_scanner_pro/rootfs/app/scanners/ema_touch.py:206-238 | the loop returns the touches found over the batch, in batch order |
| EmaTouch.EmaScanner.MarkBatch | crypto_scanner_pro/rootfs/app/scanners/ema_touch.py:249-250 | marking symbol by symbol leaves the store as `MarkAll` of the batch |
| EmaTouch.EmaScanner.Scan | crypto_scanner_pro/rootfs/app/scanners/ema_touch.py:182-262 | returns the scan result for the store as it was, and marks exactly the reported symbols |
| AthAtl.HistoryLimit | crypto_scanner_pro/rootfs/app/scanners/ath_atl_scanner.py:129 | the candles requested are the lookback capped at 1000 |
| AthAtl.FetchHistoricalData | crypto_scanner_pro/rootfs/app/scanners/ath_atl_scanner.py:129-149 | a history is returned exactly when the capped request succeeds with at least 30 candles, and it is the exchange's answer unchanged |
| AthAtl.MaxHigh | crypto_scanner_pro/rootfs/app/scanners/ath_atl_scanner.py:169-173 | at least every candle's high and equal to one of them |
| AthAtl.MinLow | crypto_scanner_pro/rootfs/app/scanners/ath_atl_scanner.py:170-174 | at most every candle's low and equal to one of them |
| AthAtl.CalculateAthAtl | crypto_scanner_pro/rootfs/app/scanners/ath_atl_scanner.py:155-189 | extremes exist exactly for a non-empty history with non-zero ATH and ATL; ATH bounds and equals a high, ATL bounds and equals a low, and the distances satisfy `d_ath * ath = (ath - price) * 100` and `d_atl * atl = (price - atl) * 100` |
| AthAtl.NewAthIsWithinThreshold | crypto_scanner_pro/rootfs/app/scanners/ath_atl_scanner.py:270-272 | a price at or above a positive ATH passes the ATH test for every non-negative threshold |
| AthAtl.AtlTestAdmitsEveryPriceAboveTheLow | crypto_scanner_pro/rootfs/app/scanners/ath_atl_scanner.py:288 | any price at or above a positive ATL passes the ATL test as written |
| AthAtl.EvalAth | crypto_scanner_pro/rootfs/app/scanners/ath_atl_scanner.py:269-285 | an ATH coin is found if and only if extremes exist, ATH alerts are on, the ATH distance is at most the threshold and the symbol is out of ATH cooldown; it is a new ATH if and only if the price is at least the ATH |
| AthAtl.EvalAtl | crypto_scanner_pro/rootfs/app/scanners/ath_atl_scanner.py:287-303 | an ATL coin is found if and only if extremes exist, ATL alerts are on, the ATL distance is at least minus the threshold and the symbol is out of ATL cooldown; it is a new ATL if and only if the price is at most the ATL; its distance is the absolute value |
| AthAtl.AtlReportsPairFarAboveTheLow | crypto_scanner_pro/rootfs/app/scanners/ath_atl_scanner.py:288-300 | a pair at twice its ATL is reported as near its ATL, at 100% distance and not a new ATL, whatever the threshold |
| AthAtl.AthFound | crypto_scanner_pro/rootfs/app/scanners/ath_atl_scanner.py:249-285 | each ATH coin found passes the ATH test, is out of cooldown, has a consistent new-ATH flag and comes from an analysed pair; every ATH verdict of an analysed pair is among them |
| AthAtl.AtlFound | crypto_scanner_pro/rootfs/app/scanners/ath_atl_scanner.py:249-303 | each ATL coin found is out of cooldown, has a non-negative distance and a consistent new-ATL flag, and comes from an analysed pair; every ATL verdict of an analysed pair is among them |
| AthAtl.AnalysedPairs | crypto_scanner_pro/rootfs/app/scanners/ath_atl_scanner.py:207-237 | at most 40 pairs, each a survivor of the filter |
| AthAtl.ScanResult | crypto_scanner_pro/rootfs/app/scanners/ath_atl_scanner.py:191-327 | no report exactly when disabled or when the snapshot fails; otherwise each list is a prefix of the coins found over the analysed pairs, as long as the per-alert maximum allows (all of them when fewer, exactly the maximum otherwise), and every reported coin is out of its cooldown |
| AthAtl.QualifyingCoinsAreReported | crypto_scanner_pro/rootfs/app/scanners/ath_atl_scanner.py:245-307 | an analysed pair whose ATH (ATL) verdict is a coin has it in the reported ATH (ATL) list, unless that list is already full at the per-alert maximum |
| AthAtl.ReportedCoinsAreSurvivors | crypto_scanner_pro/rootfs/app/scanners/ath_atl_scanner.py:207-303 | every reported coin carries the symbol and last price of a liquid USDT ticker of the snapshot |
| AthAtl.OverlappingPairFoundTwice | crypto_scanner_pro/rootfs/app/scanners/ath_atl_scanner.py:233-303 | with 20 to 39 survivors, when the pair shared by both lists qualifies, the ATH coins found hold the same coin twice |
| AthAtl.ShortLookbackReportsNothing | crypto_scanner_pro/rootfs/app/scanners/ath_atl_scanner.py:129-147 | with a lookback under 30 days, and an exchange that honours the limit, nothing is reported |
| AthAtl.NoRepeatWithinCooldown | crypto_scanner_pro/rootfs/app/scanners/ath_atl_scanner.py:305-321 | after marking, a scan within the cooldown window reports none of the symbols the previous scan reported, in the same list |
| AthAtl.AthAtlScanner.constructor | crypto_scanner_pro/rootfs/app/scanners/ath_atl_scanner.py:22-55 | both stores start as the loaded cooldown files |
| AthAtl.AthAtlScanner.IsInCooldown | crypto_scanner_pro/rootfs/app/scanners/ath_atl_scanner.py:84-102 | "ath" selects the ATH store and anything else the ATL store; the symbol is suppressed exactly when it is in that store and `now < last + cooldown_hours` |
| AthAtl.AthAtlScanner.MarkAlerted | crypto_scanner_pro/rootfs/app/scanners/ath_atl_scanner.py:104-111 | overwrites the symbol's entry in the selected store only; the other store is unchanged |
| AthAtl.AthAtlScanner.CheckPair | crypto_scanner_pro/rootfs/app/scanners/ath_atl_scanner.py:257-303 | the loop body returns the pair's ATH and ATL verdicts |
| AthAtl.AthAtlScanner.FindCandidates | crypto_scanner_pro/rootfs/app/scanners/ath_atl_scanner.py:245-303 | the loop returns the ATH and ATL coins found, in analysis order |
| AthAtl.AthAtlScanner.MarkBatch | crypto_scanner_pro/rootfs/app/scanners/ath_atl_scanner.py:317-321 | marking symbol by symbol leaves the selected store as `MarkAll` of the batch and the other unchanged |
| AthAtl.AthAtlScanner.Scan | crypto_scanner_pro/rootfs/app/scanners/ath_atl_scanner.py:191-333 | returns the scan result for the stores as they were; leaves both stores unchanged when there is no report, and otherwise marks exactly the kept coins, each in its own store |
| VolumeScan.NeverBothGainerAndLoser | crypto_scanner_pro/rootfs/app/scanners/volume.py:124-147 | with non-negative thresholds no pair is both a gainer and a loser |
| VolumeScan.GainersFound | crypto_scanner_pro/rootfs/app/scanners/volume.py:114-134 | a pair is found as a gainer if and only if it survives, rose more than the gainer threshold with gainers on, and is out of gainer cooldown |
| VolumeScan.LosersFound | crypto_scanner_pro/rootfs/app/scanners/volume.py:114-147 | a pair is found as a loser if and only if it survives, fell more than the loser threshold with losers on, and is out of loser cooldown |
| VolumeScan.RankByChangeAscending | crypto_scanner_pro/rootfs/app/scanners/volume.py:151 | a permutation in non-decreasing change |
| VolumeScan.ReportedGainers | crypto_scanner_pro/rootfs/app/scanners/volume.py:150-154 | at most `max_coins` gainers, in non-increasing change, each a surviving gainer out of cooldown |
| VolumeScan.ReportedLosers | crypto_scanner_pro/rootfs/app/scanners/volume.py:151-155 | at most `max_coins` losers, in non-decreasing change, each a surviving loser out of cooldown |
| VolumeScan.ScanResult | crypto_scanner_pro/rootfs/app/scanners/volume.py:92-174 | no report exactly when disabled or when the snapshot fails; otherwise no volume spikes, and the gainers and losers are exactly those reported over the snapshot's survivors: at most `max_coins` each, each passing its test out of its cooldown |
| VolumeScan.CutDescendingKeepsStrongest | crypto_scanner_pro/rootfs/app/scanners/volume.py:150-154 | cutting a list ranked by falling change drops a pair only when `n` pairs that changed at least as much are kept |
| VolumeScan.CutAscendingKeepsStrongest | crypto_scanner_pro/rootfs/app/scanners/volume.py:151-155 | cutting a list ranked by rising change drops a pair only when `n` pairs that changed at most as much are kept |
| VolumeScan.StrongestGainersAreReported | crypto_scanner_pro/rootfs/app/scanners/volume.py:124-154 | an eligible gainer left out of the report was crowded out by `max_coins` gainers that rose at least as much |
| VolumeScan.StrongestLosersAreReported | crypto_scanner_pro/rootfs/app/scanners/volume.py:137-155 | an eligible loser left out of the report was crowded out by `max_coins` losers that fell at least as much |
| VolumeScan.NoRepeatWithinCooldown | crypto_scanner_pro/rootfs/app/scanners/volume.py:159-166 | after marking, a scan within the cooldown window reports none of the symbols the previous scan reported, in the same list |
| VolumeScan.VolumeScanner.constructor | crypto_scanner_pro/rootfs/app/scanners/volume.py:21-41 | both stores start as the loaded cooldown files |
| VolumeScan.VolumeScanner.IsInCooldown | crypto_scanner_pro/rootfs/app/scanners/volume.py:63-81 | "gainer" selects the gainer store and anything else the loser store; the symbol is suppressed exactly when it is in that store and `now < last + cooldown_hours` |
| VolumeScan.VolumeScanner.MarkAlerted | crypto_scanner_pro/rootfs/app/scanners/volume.py:83-90 | overwrites the symbol's entry in the selected store only; the other store is unchanged |
| VolumeScan.VolumeScanner.Classify | crypto_scanner_pro/rootfs/app/scanners/volume.py:123-147 | the gainer and loser tests with their cooldown checks give the pair's two verdicts |
| VolumeScan.VolumeScanner.VisitTicker | crypto_scanner_pro/rootfs/app/scanners/volume.py:114-147 | an illiquid or non-USDT ticker yields nothing; an eligible one yields its pair's two verdicts |
| VolumeScan.VolumeScanner.FindMovers | crypto_scanner_pro/rootfs/app/scanners/volume.py:107-147 | the loop returns the gainers and losers found among the survivors, in snapshot order |
| VolumeScan.VolumeScanner.MarkBatch | crypto_scanner_pro/rootfs/app/scanners/volume.py:162-166 | marking symbol by symbol leaves the selected store as `MarkAll` of the batch and the other unchanged |
| VolumeScan.VolumeScanner.Scan | crypto_scanner_pro/rootfs/app/scanners/volume.py:92-174 | returns the scan result for the stores as they were; leaves both stores unchanged when there is no report, and otherwise marks exactly the reported prefixes, each in its own store |
| DailyFlip.FlipChange | crypto_scanner_pro/rootfs/app/scanners/daily_flip.py:104-106 | the change times the open price is the price move times 100 |
| DailyFlip.MissingOpenMeansNoChange | crypto_scanner_pro/rootfs/app/scanners/daily_flip.py:105-106 | without the price 24h earlier the change is zero |
| DailyFlip.FlipSurvivors | crypto_scanner_pro/rootfs/app/scanners/daily_flip.py:95-112 | when the walk completes, every survivor is a USDT pair with quote volume at least the minimum, and there are no more survivors than tickers |
| DailyFlip.FlipPair | crypto_scanner_pro/rootfs/app/scanners/daily_flip.py:104-112 | a surviving ticker keeps its symbol, last price and quote volume, and its change times the open price is the price move times 100 |
| DailyFlip.FlipSurvivorsExactly | crypto_scanner_pro/rootfs/app/scanners/daily_flip.py:95-112 | when the walk completes, every liquid USDT ticker has a non-zero open price, and a pair survives if and only if a liquid USDT ticker of the snapshot produced it, with its recomputed change |
| DailyFlip.FlipSurvivorsFailExactly | crypto_scanner_pro/rootfs/app/scanners/daily_flip.py:100-106 | the walk raises if and only if some liquid USDT pair has an open price of zero |
| DailyFlip.FlipSurvivorsFailSticky | crypto_scanner_pro/rootfs/app/scanners/daily_flip.py:96-112 | once the walk raised on a prefix of the snapshot, it raises on the whole snapshot |
| DailyFlip.NearFlipIsConfiguredThreshold | crypto_scanner_pro/rootfs/app/scanners/daily_flip.py:139 | the threshold stored divided by 100 and compared multiplied by 100 admits exactly the changes strictly inside the configured threshold either way |
| DailyFlip.Direction | crypto_scanner_pro/rootfs/app/scanners/daily_flip.py:140 | green to red if and only if the change is positive; zero gives red to green |
| DailyFlip.AdmitsFlipTable | crypto_scanner_pro/rootfs/app/scanners/daily_flip.py:142-144 | "both" admits every change, "green_to_red" only rises, "red_to_green" only falls, any other setting nothing; an unchanged pair passes only under "both" |
| DailyFlip.AdmittedDirection | crypto_scanner_pro/rootfs/app/scanners/daily_flip.py:140-144 | an admitted flip's direction agrees with the setting that admitted it |
| DailyFlip.FlipsFound | crypto_scanner_pro/rootfs/app/scanners/daily_flip.py:132-156 | every flip found is strictly within the threshold, admitted by the flip type, has the direction of its sign, is out of cooldown and carries an analysed pair's symbol, price and change; every flip verdict of an analysed pair is among them |
| DailyFlip.ScanResult | crypto_scanner_pro/rootfs/app/scanners/daily_flip.py:79-167 | empty when disabled, when the snapshot fails or when a survivor's open price is zero; otherwise at most 40 flips, each within the threshold, admitted and out of cooldown; each reported flip is the verdict on a top-20 gainer or loser, and the report is never cut: every such verdict is reported |
| DailyFlip.OverlappingPairReportedTwice | crypto_scanner_pro/rootfs/app/scanners/daily_flip.py:120-156 | with 20 to 39 survivors, when the pair shared by both lists qualifies, the scan reports the same flip twice |
| DailyFlip.NoRepeatWithinCooldown | crypto_scanner_pro/rootfs/app/scanners/daily_flip.py:158-163 | after marking, a scan within the cooldown window reports none of the symbols the previous scan reported |
| DailyFlip.DailyFlipScanner.constructor | crypto_scanner_pro/rootfs/app/scanners/daily_flip.py:20-34 | the threshold is stored divided by 100 and the store starts as the loaded cooldown file |
| DailyFlip.DailyFlipScanner.IsInCooldown | crypto_scanner_pro/rootfs/app/scanners/daily_flip.py:56-72 | the symbol is suppressed exactly when it is in the store and `now < last + cooldown_hours` |
| DailyFlip.DailyFlipScanner.MarkAlerted | crypto_scanner_pro/rootfs/app/scanners/daily_flip.py:74-77 | overwrites only that symbol's entry with `now` and writes the store through |
| DailyFlip.DailyFlipScanner.CollectFlipPairs | crypto_scanner_pro/rootfs/app/scanners/daily_flip.py:95-112 | the first loop returns the survivors with their recomputed change, or fails as the division does |
| DailyFlip.DailyFlipScanner.CheckPair | crypto_scanner_pro/rootfs/app/scanners/daily_flip.py:138-156 | the loop body returns the pair's flip verdict |
| DailyFlip.DailyFlipScanner.FindFlips | crypto_scanner_pro/rootfs/app/scanners/daily_flip.py:132-156 | the second loop returns the flips found over the analysed pairs, in order |
| DailyFlip.DailyFlipScanner.MarkBatch | crypto_scanner_pro/rootfs/app/scanners/daily_flip.py:161-163 | marking symbol by symbol leaves the store as `MarkAll` of the batch |
| DailyFlip.DailyFlipScanner.Scan | crypto_scanner_pro/rootfs/app/scanners/daily_flip.py:79-170 | returns the scan result for the store as it was, and marks every flip it returns |
| AthAtlStatus.LosersMostNegativeFirst | crypto_scanner_pro/rootfs/app/app.py:327-328 | the top losers in reverse order |
| AthAtlStatus.Status | crypto_scanner_pro/rootfs/app/app.py:301-340 | an error exactly when the snapshot fails; otherwise at most 40 monitored pairs, a pair count equal to the number of survivors, 10 shown gainers (as many as survive when fewer) and 10 shown losers once 20 pairs survive, none before |
| AthAtlStatus.ShownGainersLead | crypto_scanner_pro/rootfs/app/app.py:326-336 | the shown gainers are a prefix of the ranking of length min(10, ranked), in non-increasing change, and each rose at least as much as every ranked pair not shown |
| AthAtlStatus.ShownLosersLead | crypto_scanner_pro/rootfs/app/app.py:327-337 | with 20 ranked pairs or more the shown losers are the last 10 of the ranking read backwards, otherwise none; they are in non-decreasing change and each fell at least as much as every ranked pair not shown |
| AthAtlStatus.StatusListsAreOrdered | crypto_scanner_pro/rootfs/app/app.py:301-337 | every pair in the response's shown lists passed the filter; each list is in its own order, and leads in rise (fall) every survivor it does not show |
| AthAtlStatus.MonitoredAreTheAnalysedPairs | crypto_scanner_pro/rootfs/app/app.py:326-331 | the monitored pairs are the top gainers followed by the reversed top losers: the pairs the ATH/ATL scanner analyses, with the same multiplicities |
| AthAtlStatus.GetAthAtlStatus | crypto_scanner_pro/rootfs/app/app.py:301-340 | the handler's loop, sort, cut and reversal build the status response |

## Left out

- The exchange requests, the return-code checks and the Telegram and chart calls are not modelled. The ticker snapshot and each candle request are inputs: `None` stands for any failed request. The alert messages (`send_alert`, `send_charts`) are not modelled, and neither is the chart generator.
- The cooldown files are not modelled beyond a ghost copy of each map that equals the map after every change. Loading JSON with ISO 8601 timestamps and saving it is file I/O; a missing or corrupt file is modelled as the map the constructor receives.
- The web server, configuration loading and the threads that run each scanner in a loop with a sleep are not modelled: they are web plumbing and concurrency.
- Floating-point rounding is not modelled: prices and changes are exact `real`s. Parsing numeric strings, and the exception it raises on a malformed or missing `lastPrice`, are not modelled either.
- Clocks are not modelled: each scan takes one `now`, in whole seconds, as a parameter. The source reads the local clock (or UTC for the EMA scanner) at every cooldown check and mark, so within one scan the instants may differ by the time the scan takes.
- Logging, progress counters and the remaining-time messages are not modelled, since they are output only.
- EmaTouch.EmaReadingOf: the EMA 5, 10 and 223 are computed and carried in the reading but never used by the scan, so no property is stated about them.
- VolumeScan.ScanResult: the volume-spike threshold is stored but never consulted, and the volume-spike list is always empty.
- DailyFlip.ScanResult: the configured `max_coins` is stored but never used; the report is not cut.
- AthAtl.OverlappingPairFoundTwice: candles are one function of the symbol, so the two requests the source makes for a pair that is both a top gainer and a top loser are assumed to return the same candles; on the exchange the day's candle can move between them.
- AthAtlStatus.Status: the response's `config` field echoes configuration and is not modelled; nor is the error response's text.
- The older copy of the web server under `crypto_scanner_professional` is not part of this model.
