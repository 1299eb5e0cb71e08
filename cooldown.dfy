/** The two cooldown policies the scanners use to keep from alerting on the same
    symbol over and over. A cooldown store is a map from symbol to the instant of
    its last alert, in whole seconds. */
module Cooldown {

  const SecondsPerHour: int := 3600
  const SecondsPerDay: int := 86400

  /** Rolling window: an alert suppresses its symbol while strictly fewer than
      `cooldownHours` hours have passed since it. */
  predicate RollingSuppressed(alerts: map<string, int>, symbol: string, now: int, cooldownHours: int)
  {
    symbol in alerts && now - alerts[symbol] < cooldownHours * SecondsPerHour
  }

  /** A symbol never alerted is never suppressed; one alerted at `last` is suppressed
      exactly up to, and not including, `last` plus the window. */
  lemma RollingWindowBounds(alerts: map<string, int>, symbol: string, now: int, cooldownHours: int)
    ensures symbol !in alerts ==> !RollingSuppressed(alerts, symbol, now, cooldownHours)
    ensures symbol in alerts ==>
      (RollingSuppressed(alerts, symbol, now, cooldownHours) <==>
       now < alerts[symbol] + cooldownHours * SecondsPerHour)
  {
  }

  /** The instant a UTC day begins, for an instant counted in seconds from the epoch. */
  function DayStart(t: int): (d: int)
    ensures d <= t < d + SecondsPerDay
    ensures d % SecondsPerDay == 0
  {
    t - t % SecondsPerDay
  }

  /** The day start is the only multiple of a day in the day that holds `t`. */
  lemma {:induction false} DayStartUnique(t: int, d: int)
    requires d % SecondsPerDay == 0 && d <= t < d + SecondsPerDay
    ensures DayStart(t) == d
  {
    var e := DayStart(t);
    assert (d - e) % SecondsPerDay == 0 by {
      assert d == (d / SecondsPerDay) * SecondsPerDay;
      assert e == (e / SecondsPerDay) * SecondsPerDay;
      assert d - e == (d / SecondsPerDay - e / SecondsPerDay) * SecondsPerDay;
    }
    assert -SecondsPerDay < d - e < SecondsPerDay;
  }

  /** UTC-day aligned: an alert suppresses its symbol for the rest of its UTC day;
      any later day clears it, however little time has passed. */
  predicate DayAlignedSuppressed(alerts: map<string, int>, symbol: string, now: int)
  {
    symbol in alerts && !(DayStart(alerts[symbol]) < DayStart(now))
  }

  /** An alert at `last` suppresses a check one minute later when that minute is still
      the same UTC day, and no longer suppresses one minute into the next day. */
  lemma {:induction false} DayAlignedExamples(alerts: map<string, int>, symbol: string)
    requires symbol in alerts
    ensures alerts[symbol] % SecondsPerDay < SecondsPerDay - 60 ==>
      DayAlignedSuppressed(alerts, symbol, alerts[symbol] + 60)
    ensures !DayAlignedSuppressed(alerts, symbol, DayStart(alerts[symbol]) + SecondsPerDay + 60)
  {
    var last := alerts[symbol];
    var d := DayStart(last);
    if last % SecondsPerDay < SecondsPerDay - 60 {
      DayStartUnique(last + 60, d);
    }
    DayStartUnique(d + SecondsPerDay + 60, d + SecondsPerDay);
  }

  /** The day-aligned policy in terms of elapsed time: an alert less than a day ago
      may or may not suppress, but one a full day or more ago never does. */
  lemma {:induction false} DayAlignedExpiresWithinADay(alerts: map<string, int>, symbol: string, now: int)
    requires symbol in alerts && now >= alerts[symbol] + SecondsPerDay
    ensures !DayAlignedSuppressed(alerts, symbol, now)
  {
  }

  /** The store after `mark_alerted` is called on each of `symbols` in turn at `now`. */
  function MarkAll(alerts: map<string, int>, symbols: seq<string>, now: int): map<string, int>
  {
    if symbols == [] then alerts
    else MarkAll(alerts, symbols[..|symbols| - 1], now)[symbols[|symbols| - 1] := now]
  }

  /** Marking overwrites exactly the marked symbols' entries and leaves every other
      entry, present or absent, as it was. */
  lemma {:induction false} MarkAllEffect(alerts: map<string, int>, symbols: seq<string>, now: int, x: string)
    ensures x in symbols ==> x in MarkAll(alerts, symbols, now) && MarkAll(alerts, symbols, now)[x] == now
    ensures x !in symbols ==>
      (x in MarkAll(alerts, symbols, now) <==> x in alerts)
      && (x in alerts ==> MarkAll(alerts, symbols, now)[x] == alerts[x])
  {
    if symbols != [] {
      var init := symbols[..|symbols| - 1];
      MarkAllEffect(alerts, init, now, x);
      assert symbols == init + [symbols[|symbols| - 1]];
      assert x in symbols <==> x in init || x == symbols[|symbols| - 1];
    }
  }

  /** A symbol just marked is suppressed by the rolling policy from the marking instant
      until the window closes. */
  lemma MarkedIsRollingSuppressed(alerts: map<string, int>, symbols: seq<string>, now: int, cooldownHours: int, x: string)
    requires x in symbols
    ensures forall t :: now <= t < now + cooldownHours * SecondsPerHour ==>
      RollingSuppressed(MarkAll(alerts, symbols, now), x, t, cooldownHours)
  {
    MarkAllEffect(alerts, symbols, now, x);
  }

  /** A symbol just marked is suppressed by the day-aligned policy for the rest of that
      UTC day. */
  lemma MarkedIsDaySuppressed(alerts: map<string, int>, symbols: seq<string>, now: int, x: string)
    requires x in symbols
    ensures forall t :: DayStart(t) == DayStart(now) ==> DayAlignedSuppressed(MarkAll(alerts, symbols, now), x, t)
  {
    MarkAllEffect(alerts, symbols, now, x);
  }

  /** The symbols of a batch of alerts, in batch order. */
  function SymbolsOf<T>(batch: seq<T>, symbolOf: T -> string): (r: seq<string>)
    ensures |r| == |batch|
    ensures forall i :: 0 <= i < |batch| ==> r[i] == symbolOf(batch[i])
  {
    seq(|batch|, i requires 0 <= i < |batch| => symbolOf(batch[i]))
  }
}
