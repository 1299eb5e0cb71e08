/** The ATH/ATL status endpoint of the web interface: the same filter and ranking as
    the scanners, reported as the monitored pairs, the leading gainers and losers, and
    the number of pairs that passed the filter. */
module AthAtlStatus {
  import opened Market
  import opened Universe

  /** How many gainers and losers the response shows. */
  const ShownPerList: nat := 10

  /** The successful response; a failed snapshot request is an error response instead. */
  datatype StatusReport = StatusReport(
    monitoredCoins: seq<Pair>,
    topGainers: seq<Pair>,
    topLosers: seq<Pair>,
    totalPairs: nat)

  /** The losers as the endpoint lists them: the bottom 20, most negative first. */
  function LosersMostNegativeFirst(ranked: seq<Pair>): (r: seq<Pair>)
    ensures |r| == |TopLosers(ranked)|
    ensures forall i :: 0 <= i < |r| ==> r[i] == TopLosers(ranked)[|r| - 1 - i]
  {
    Reverse(TopLosers(ranked))
  }

  /** The response for a snapshot; None is the error response. The endpoint shows up to 10
      gainers, and 10 losers only once 20 pairs survive (otherwise there are no losers). */
  function Status(tickers: Option<seq<Ticker>>, minVolume: real): (r: Option<StatusReport>)
    ensures r.None? <==> tickers.None?
    ensures r.Some? ==> r.value.totalPairs == |Survivors(tickers.value, minVolume)|
    ensures r.Some? ==> |r.value.topGainers| == if r.value.totalPairs < ShownPerList then r.value.totalPairs else ShownPerList
    ensures r.Some? ==> |r.value.topLosers| == if r.value.totalPairs >= TopN then ShownPerList else 0
    ensures r.Some? ==> |r.value.monitoredCoins| <= 2 * TopN
  {
    match tickers
    case None => None
    case Some(ts) =>
      var ranked := RankByChange(Survivors(ts, minVolume));
      assert |ranked| == |Survivors(ts, minVolume)| by {
        assert |multiset(ranked)| == |multiset(Survivors(ts, minVolume))|;
      }
      var gainers := TopGainers(ranked);
      var losers := LosersMostNegativeFirst(ranked);
      Some(StatusReport(gainers + losers, Take(gainers, ShownPerList), Take(losers, ShownPerList), |ranked|))
  }

  predicate RankedByChange(ranked: seq<Pair>) {
    forall i, j :: 0 <= i < j < |ranked| ==> ranked[i].changePct >= ranked[j].changePct
  }

  /** The shown gainers are the first 10 of the ranking (all of it when shorter), largest
      rise first, each at least the rise of every ranked pair not shown. */
  lemma {:induction false} ShownGainersLead(ranked: seq<Pair>)
    requires RankedByChange(ranked)
    ensures var shown := Take(TopGainers(ranked), ShownPerList);
      shown <= ranked
      && |shown| == (if |ranked| < ShownPerList then |ranked| else ShownPerList)
      && (forall i, j :: 0 <= i < j < |shown| ==> shown[i].changePct >= shown[j].changePct)
      && (forall g, p :: g in shown && p in ranked && p !in shown ==> g.changePct >= p.changePct)
  {
    var gainers := TopGainers(ranked);
    var shown := Take(gainers, ShownPerList);
    assert forall i :: 0 <= i < |shown| ==> shown[i] == ranked[i];
    forall g, p | g in shown && p in ranked && p !in shown ensures g.changePct >= p.changePct {
      var k :| 0 <= k < |ranked| && ranked[k] == p;
      var i :| 0 <= i < |shown| && shown[i] == g;
    }
  }

  /** The shown losers are the last 10 of the ranking, most negative first, once 20 pairs
      are ranked (none before), each at most the change of every ranked pair not shown. */
  lemma {:induction false} ShownLosersLead(ranked: seq<Pair>)
    requires RankedByChange(ranked)
    ensures var shown := Take(LosersMostNegativeFirst(ranked), ShownPerList);
      |shown| == (if |ranked| >= TopN then ShownPerList else 0)
      && (forall i :: 0 <= i < |shown| ==> shown[i] == ranked[|ranked| - 1 - i])
      && (forall i, j :: 0 <= i < j < |shown| ==> shown[i].changePct <= shown[j].changePct)
      && (forall l, p :: l in shown && p in ranked && p !in shown ==> l.changePct <= p.changePct)
  {
    var n := |ranked|;
    var losers := TopLosers(ranked);
    var reversed := LosersMostNegativeFirst(ranked);
    var shown := Take(reversed, ShownPerList);
    forall i | 0 <= i < |shown| ensures shown[i] == ranked[n - 1 - i] {
      assert shown[i] == reversed[i] == losers[|losers| - 1 - i];
    }
    ReversedTailLeads(ranked, shown);
  }

  /** The last pairs of a ranking, read backwards, change at most as much as any ranked
      pair outside them. */
  lemma ReversedTailLeads(ranked: seq<Pair>, tail: seq<Pair>)
    requires RankedByChange(ranked)
    requires |tail| <= |ranked|
    requires forall i :: 0 <= i < |tail| ==> tail[i] == ranked[|ranked| - 1 - i]
    ensures forall l, p :: l in tail && p in ranked && p !in tail ==> l.changePct <= p.changePct
  {
    var n := |ranked|;
    forall j | n - |tail| <= j < n ensures ranked[j] in tail {
      assert tail[n - 1 - j] == ranked[j];
    }
    forall l, p | l in tail && p in ranked && p !in tail ensures l.changePct <= p.changePct {
      var k :| 0 <= k < n && ranked[k] == p;
      var i :| 0 <= i < |tail| && tail[i] == l;
    }
  }

  /** The response's lists in terms of the survivors: every shown pair passed the filter,
      the shown gainers lead in rise over every survivor not shown and the shown losers in
      fall over every survivor not shown, each list in its own order. */
  lemma StatusListsAreOrdered(ts: seq<Ticker>, minVolume: real)
    ensures var r := Status(Some(ts), minVolume).value;
      var survivors := Survivors(ts, minVolume);
      (forall g :: g in r.topGainers ==> g in survivors)
      && (forall l :: l in r.topLosers ==> l in survivors)
      && (forall i, j :: 0 <= i < j < |r.topGainers| ==> r.topGainers[i].changePct >= r.topGainers[j].changePct)
      && (forall i, j :: 0 <= i < j < |r.topLosers| ==> r.topLosers[i].changePct <= r.topLosers[j].changePct)
      && (forall g, p :: g in r.topGainers && p in survivors && p !in r.topGainers ==> g.changePct >= p.changePct)
      && (forall l, p :: l in r.topLosers && p in survivors && p !in r.topLosers ==> l.changePct <= p.changePct)
  {
    var r := Status(Some(ts), minVolume).value;
    var survivors := Survivors(ts, minVolume);
    var ranked := RankByChange(survivors);
    assert r.topGainers == Take(TopGainers(ranked), ShownPerList);
    assert r.topLosers == Take(LosersMostNegativeFirst(ranked), ShownPerList);
    ShownGainersLead(ranked);
    ShownLosersLead(ranked);
    RankedAreSurvivors(survivors, ranked);
  }

  /** Ranking keeps exactly the pairs it was given. */
  lemma RankedAreSurvivors(survivors: seq<Pair>, ranked: seq<Pair>)
    requires multiset(ranked) == multiset(survivors)
    ensures forall p :: p in ranked <==> p in survivors
  {
    forall p ensures p in ranked <==> p in survivors {
      assert p in ranked <==> p in multiset(ranked);
      assert p in survivors <==> p in multiset(survivors);
    }
  }

  /** The monitored pairs are the pairs the ATH/ATL scanner analyses, losers in reverse. */
  lemma MonitoredAreTheAnalysedPairs(ts: seq<Ticker>, minVolume: real)
    ensures var ranked := RankByChange(Survivors(ts, minVolume));
      var r := Status(Some(ts), minVolume).value;
      r.monitoredCoins == TopGainers(ranked) + Reverse(TopLosers(ranked))
      && multiset(r.monitoredCoins) == multiset(Analysed(ranked))
  {
    var ranked := RankByChange(Survivors(ts, minVolume));
    ReverseMultiset(TopLosers(ranked));
  }

  /** The handler: walk the snapshot, sort, cut, reverse the losers, build the response. */
  method GetAthAtlStatus(tickers: Option<seq<Ticker>>, minVolume: real) returns (r: Option<StatusReport>)
    ensures r == Status(tickers, minVolume)
  {
    if tickers.None? {
      return None;
    }
    var allPairs := CollectPairs(tickers.value, minVolume);
    allPairs := RankByChange(allPairs);
    var topGainers := TopGainers(allPairs);
    var topLosers := TopLosers(allPairs);
    topLosers := Reverse(topLosers);
    var monitoredCoins := topGainers + topLosers;
    r := Some(StatusReport(monitoredCoins, Take(topGainers, ShownPerList), Take(topLosers, ShownPerList), |allPairs|));
  }
}
