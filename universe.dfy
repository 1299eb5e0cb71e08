/** Universe selection: the liquidity filter over the ticker snapshot, the ranking by
    24h change, and the "top 20 gainers + top 20 losers" cut that the ATH/ATL scanner,
    the daily flip scanner and the status endpoint share. */
module Universe {
  import opened Market
  import opened Sorting

  /** How many gainers and how many losers are kept. */
  const TopN: nat := 20

  /** A ticker that survived the filter: symbol, price, 24h change in percent and
      24h volume in the quote currency. */
  datatype Pair = Pair(symbol: string, price: real, changePct: real, quoteVolume: real)

  /** The filter: a USDT pair with at least `minVolume` quote volume. */
  predicate Eligible(t: Ticker, minVolume: real) {
    IsUsdtPair(t.symbol) && QuoteVolume(t) >= minVolume
  }

  function ToPair(t: Ticker): Pair {
    Pair(t.symbol, t.lastPrice, ChangePct(t), QuoteVolume(t))
  }

  /** The survivors of the filter, in snapshot order. */
  function Survivors(ts: seq<Ticker>, minVolume: real): (r: seq<Pair>)
    ensures |r| <= |ts|
    ensures forall i :: 0 <= i < |r| ==> IsUsdtPair(r[i].symbol) && r[i].quoteVolume >= minVolume
  {
    if ts == [] then []
    else
      var rest := Survivors(ts[..|ts| - 1], minVolume);
      if Eligible(ts[|ts| - 1], minVolume) then rest + [ToPair(ts[|ts| - 1])] else rest
  }

  /** A pair survives exactly when some eligible ticker produced it. */
  lemma {:induction false} SurvivorsExactly(ts: seq<Ticker>, minVolume: real, p: Pair)
    ensures p in Survivors(ts, minVolume) <==>
      exists i :: 0 <= i < |ts| && Eligible(ts[i], minVolume) && ToPair(ts[i]) == p
  {
    if ts != [] {
      var init := ts[..|ts| - 1];
      SurvivorsExactly(init, minVolume, p);
      assert forall i :: 0 <= i < |init| ==> init[i] == ts[i];
    }
  }

  /** One more ticker: its pair is appended when it is eligible. */
  lemma SurvivorsStep(ts: seq<Ticker>, minVolume: real, i: nat)
    requires i < |ts|
    ensures Eligible(ts[i], minVolume) ==>
      Survivors(ts[..i + 1], minVolume) == Survivors(ts[..i], minVolume) + [ToPair(ts[i])]
    ensures !Eligible(ts[i], minVolume) ==> Survivors(ts[..i + 1], minVolume) == Survivors(ts[..i], minVolume)
  {
    assert ts[..i + 1][..i] == ts[..i];
  }

  /** One more ticker in a loop that collects a verdict on each surviving pair: the
      verdict is appended when the ticker is eligible and yields one. */
  lemma CollectSurvivorsStep<U>(ts: seq<Ticker>, minVolume: real, i: nat, f: Pair -> Option<U>,
                                 found: seq<U>, v: Option<U>)
    requires i < |ts| && found == Collect(Survivors(ts[..i], minVolume), f)
    requires Eligible(ts[i], minVolume) ==> v == f(ToPair(ts[i]))
    requires !Eligible(ts[i], minVolume) ==> v.None?
    ensures v.Some? ==> found + [v.value] == Collect(Survivors(ts[..i + 1], minVolume), f)
    ensures v.None? ==> found == Collect(Survivors(ts[..i + 1], minVolume), f)
  {
    SurvivorsStep(ts, minVolume, i);
    if Eligible(ts[i], minVolume) {
      CollectSnoc(Survivors(ts[..i], minVolume), ToPair(ts[i]), f);
    }
  }

  /** The loop that walks the snapshot and appends each surviving pair. */
  method CollectPairs(ts: seq<Ticker>, minVolume: real) returns (pairs: seq<Pair>)
    ensures pairs == Survivors(ts, minVolume)
  {
    pairs := [];
    var i := 0;
    while i < |ts|
      invariant 0 <= i <= |ts|
      invariant pairs == Survivors(ts[..i], minVolume)
    {
      assert ts[..i + 1][..i] == ts[..i];
      var item := ts[i];
      if IsUsdtPair(item.symbol) {
        var volume := QuoteVolume(item);
        if volume >= minVolume {
          pairs := pairs + [Pair(item.symbol, item.lastPrice, ChangePct(item), volume)];
        }
      }
      i := i + 1;
    }
    assert ts[..|ts|] == ts;
  }

  function ChangeDescKey(p: Pair): real { -p.changePct }

  /** The survivors sorted by 24h change, largest first; ties keep snapshot order. */
  function RankByChange(pairs: seq<Pair>): (r: seq<Pair>)
    ensures multiset(r) == multiset(pairs)
    ensures forall i, j :: 0 <= i < j < |r| ==> r[i].changePct >= r[j].changePct
  {
    var r := SortBy(pairs, ChangeDescKey);
    assert forall i, j :: 0 <= i < j < |r| ==> ChangeDescKey(r[i]) <= ChangeDescKey(r[j]);
    r
  }

  /** Ties: the pairs with any one change value keep their snapshot order. */
  lemma RankByChangeStable(pairs: seq<Pair>, c: real)
    ensures WithKey(RankByChange(pairs), ChangeDescKey, -c) == WithKey(pairs, ChangeDescKey, -c)
  {
    SortByStable(pairs, ChangeDescKey, -c);
  }

  /** `ranked[:20]`. */
  function TopGainers(ranked: seq<Pair>): (r: seq<Pair>)
    ensures |r| == if |ranked| < TopN then |ranked| else TopN
    ensures r == ranked[..|r|]
  {
    Take(ranked, TopN)
  }

  /** `ranked[-20:]` when at least 20 pairs survive, else nothing. */
  function TopLosers(ranked: seq<Pair>): (r: seq<Pair>)
    ensures |ranked| < TopN ==> r == []
    ensures |ranked| >= TopN ==> |r| == TopN && r == ranked[|ranked| - TopN..]
  {
    if |ranked| >= TopN then ranked[|ranked| - TopN..] else []
  }

  /** The pairs a scanner fetches history for: the gainers, then the losers. */
  function Analysed(ranked: seq<Pair>): (r: seq<Pair>)
    ensures |r| <= 2 * TopN
    ensures |ranked| >= TopN ==> |r| == 2 * TopN
    ensures forall x :: x in r ==> x in ranked
  {
    TopGainers(ranked) + TopLosers(ranked)
  }

  /** The top gainers out-rank every pair left out of them, and every pair left out of
      the top losers out-ranks them. */
  lemma TopListsAreExtremes(ranked: seq<Pair>)
    requires forall i, j :: 0 <= i < j < |ranked| ==> ranked[i].changePct >= ranked[j].changePct
    ensures forall i, j :: 0 <= i < |TopGainers(ranked)| <= j < |ranked| ==>
      TopGainers(ranked)[i].changePct >= ranked[j].changePct
    ensures forall i, j :: 0 <= i < |TopLosers(ranked)| && 0 <= j < |ranked| - |TopLosers(ranked)| ==>
      ranked[j].changePct >= TopLosers(ranked)[i].changePct
  {
  }

  predicate DistinctSymbols(s: seq<Pair>) {
    forall i, j :: 0 <= i < j < |s| ==> s[i].symbol != s[j].symbol
  }

  function Symbol(p: Pair): string { p.symbol }

  /** With 20 to 39 survivors the two lists share the pairs ranked 20th from the
      bottom up to 20th from the top, so the analysed list holds that pair twice. */
  lemma {:induction false} GainersLosersOverlap(ranked: seq<Pair>)
    requires TopN <= |ranked| < 2 * TopN
    ensures ranked[|ranked| - TopN] in TopGainers(ranked) && ranked[|ranked| - TopN] in TopLosers(ranked)
    ensures Analysed(ranked)[|ranked| - TopN] == Analysed(ranked)[TopN] == ranked[|ranked| - TopN]
  {
    assert TopGainers(ranked)[|ranked| - TopN] == ranked[|ranked| - TopN];
    assert TopLosers(ranked)[0] == ranked[|ranked| - TopN];
  }

  /** With 20 to 39 survivors, any per-pair verdict that yields something on the pair both
      lists share is collected twice over the analysed list. */
  lemma OverlapCollectedTwice<U>(ranked: seq<Pair>, f: Pair -> Option<U>) returns (i: nat, j: nat)
    requires TopN <= |ranked| < 2 * TopN && f(ranked[|ranked| - TopN]).Some?
    ensures var found := Collect(Analysed(ranked), f);
      i < j < |found| && found[i] == found[j]
  {
    GainersLosersOverlap(ranked);
    i, j := CollectRepeats(Analysed(ranked), f, |ranked| - TopN, TopN);
  }

  /** With distinct symbols, each list is free of repeats; with 40 or more survivors the
      analysed list is too. */
  lemma {:induction false} SelectionDistinct(ranked: seq<Pair>)
    requires DistinctSymbols(ranked)
    ensures DistinctSymbols(TopGainers(ranked)) && DistinctSymbols(TopLosers(ranked))
    ensures |ranked| >= 2 * TopN ==> DistinctSymbols(Analysed(ranked))
  {
    var g, l := TopGainers(ranked), TopLosers(ranked);
    if |ranked| >= 2 * TopN {
      var a := Analysed(ranked);
      var off := |ranked| - 2 * TopN;
      forall i, j | 0 <= i < j < |a| ensures a[i].symbol != a[j].symbol {
        var ii := if i < TopN then i else i + off;
        var jj := if j < TopN then j else j + off;
        assert a[i] == ranked[ii] && a[j] == ranked[jj];
      }
    }
  }

  /** Ranking a snapshot whose symbols are distinct keeps them distinct. */
  lemma RankKeepsDistinct(pairs: seq<Pair>)
    requires DistinctSymbols(pairs)
    ensures DistinctSymbols(RankByChange(pairs))
  {
    SortByKeepsDistinct(pairs, ChangeDescKey, Symbol);
  }
}
