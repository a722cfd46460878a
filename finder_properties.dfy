/**
 * Properties of the opportunity search of OpportunityFinder: which
 * opportunities are reported, what each one guarantees, and how the labels
 * and the odds table are built.
 */
module FinderProperties {
  import opened Wrappers
  import opened Text
  import opened ArbitrageCalculator
  import opened CalculatorProperties
  import opened Grouping
  import opened EventGrouping
  import opened OpportunityFinder

  /** `o` is the opportunity of market `m` of the match with header `h`, and that market qualifies. */
  ghost predicate FromMarket(h: MatchHeader, m: MarketGroup, minProfit: real, o: Opportunity)
  {
    Qualifies(m.items, minProfit) && o == OpportunityFor(h, m.key, m.items)
  }

  lemma {:induction false} MarketOpportunitiesMembers(h: MatchHeader, mk: seq<MarketGroup>, minProfit: real, o: Opportunity)
    ensures o in MarketOpportunities(h, mk, minProfit) <==> exists j :: 0 <= j < |mk| && FromMarket(h, mk[j], minProfit, o)
  {
    if |mk| > 0 {
      var p := mk[..|mk| - 1];
      MarketOpportunitiesMembers(h, p, minProfit, o);
      if exists j :: 0 <= j < |p| && FromMarket(h, p[j], minProfit, o) {
        var j :| 0 <= j < |p| && FromMarket(h, p[j], minProfit, o);
        assert mk[j] == p[j];
      }
      if j :| 0 <= j < |mk| - 1 && FromMarket(h, mk[j], minProfit, o) {
        assert p[j] == mk[j];
      }
    }
  }

  lemma {:induction false} MatchOpportunitiesMembers(ms: seq<MatchGroup>, minProfit: real, o: Opportunity)
    ensures o in MatchOpportunities(ms, minProfit) <==>
      exists i :: 0 <= i < |ms| && o in MarketOpportunities(ms[i].header, Markets(ms[i].items), minProfit)
  {
    if |ms| > 0 {
      var p := ms[..|ms| - 1];
      MatchOpportunitiesMembers(p, minProfit, o);
      if exists i :: 0 <= i < |p| && o in MarketOpportunities(p[i].header, Markets(p[i].items), minProfit) {
        var i :| 0 <= i < |p| && o in MarketOpportunities(p[i].header, Markets(p[i].items), minProfit);
        assert ms[i] == p[i];
      }
      if i :| 0 <= i < |ms| - 1 && o in MarketOpportunities(ms[i].header, Markets(ms[i].items), minProfit) {
        assert p[i] == ms[i];
      }
    }
  }

  /**
   * Lines 141-242: an opportunity is reported exactly when it is the
   * opportunity of a qualifying market of some match.
   */
  lemma DiscoverCharacterised(es: seq<Event>, minProfit: real, o: Opportunity)
    ensures var ms := Matches(es);
      o in Discover(es, minProfit) <==>
      exists i, j :: 0 <= i < |ms| && 0 <= j < |Markets(ms[i].items)| && FromMarket(ms[i].header, Markets(ms[i].items)[j], minProfit, o)
  {
    var ms := Matches(es);
    MatchOpportunitiesMembers(ms, minProfit, o);
    forall i | 0 <= i < |ms| {
      MarketOpportunitiesMembers(ms[i].header, Markets(ms[i].items), minProfit, o);
    }
  }

  /**
   * Lines 170-239: a qualifying market's percentage reaches the threshold and is
   * positive, the unrounded stakes add up to the 10000 total, and the expected
   * profit is that total times (1 - s), s being the sum of reciprocals of the best odds.
   */
  lemma OpportunityIsSound(h: MatchHeader, key: string, qs: seq<Quote>, minProfit: real)
    requires Qualifies(qs, minProfit)
    ensures var o := OpportunityFor(h, key, qs);
      var s := SumReciprocal(BestOdds(qs));
      && o.arbitragePercentage >= minProfit && o.arbitragePercentage > 0.0
      && 0.0 < s < 1.0 && o.arbitragePercentage == (1.0 - s) * 100.0
      && o.totalStake == DefaultStake
      && TotalStaked(o.stakeDistribution) == DefaultStake
      && o.expectedProfit == DefaultStake * (1.0 - s)
  {
    FoundBounds(qs);
    BestOddsNonEmpty(qs);
    AllocationSumsToTotal(BestOdds(qs), DefaultStake);
    ProfitFromPercentage(DefaultStake, SumReciprocal(BestOdds(qs)));
  }

  /**
   * Lines 204-225: the potential return is the same for every outcome, and it
   * exceeds the 10000 staked in total; the details list the stakes in order.
   */
  lemma StakeDetailsPayEqually(h: MatchHeader, key: string, qs: seq<Quote>, minProfit: real)
    requires Qualifies(qs, minProfit)
    ensures var o := OpportunityFor(h, key, qs);
      var s := SumReciprocal(BestOdds(qs));
      && |o.stakeDetails| == |o.stakeDistribution| == |BestOdds(qs)|
      && (forall k :: 0 <= k < |o.stakeDetails| ==>
            o.stakeDetails[k].potentialReturn == DefaultStake / s
            && o.stakeDetails[k].stake == o.stakeDistribution[k].stake
            && o.stakeDetails[k].bookmaker == o.stakeDistribution[k].bookmaker)
      && DefaultStake / s > DefaultStake
  {
    var bs := BestOdds(qs);
    var s := SumReciprocal(bs);
    var d := Allocation(bs, DefaultStake);
    var details := StakeDetails(d, key);
    FoundBounds(qs);
    forall k | 0 <= k < |details|
      ensures details[k].potentialReturn == DefaultStake / s
      ensures details[k].stake == d[k].stake && details[k].bookmaker == d[k].bookmaker
    {
      assert d[k] == StakeFor(bs[k], DefaultStake, s);
      ReturnOfDetail(d[k], key, bs[k].odds, s);
    }
    ReturnExceedsStake(DefaultStake, s);
  }

  /** The potential return of the detail of a stake proportional to 1/odds. */
  lemma ReturnOfDetail(d: Stake, key: string, odds: Odds, s: real)
    requires s > 0.0 && d.odds == odds && d.stake == StakeAmount(DefaultStake, odds, s)
    ensures Detail(d, key).potentialReturn == DefaultStake / s
  {
    EqualReturn(odds, DefaultStake, s);
  }

  lemma ReturnExceedsStake(total: real, s: real)
    requires total > 0.0 && 0.0 < s < 1.0
    ensures total / s > total
  {
    var u := total * (1.0 - s);
    assert u > 0.0;
    assert total / s - total == u / s;
    assert u / s > 0.0;
  }

  /** Every reported opportunity is sound in the sense of OpportunityIsSound. */
  lemma DiscoveredAreSound(es: seq<Event>, minProfit: real, o: Opportunity)
    requires o in Discover(es, minProfit)
    ensures o.arbitragePercentage >= minProfit && o.arbitragePercentage > 0.0
    ensures o.totalStake == DefaultStake && TotalStaked(o.stakeDistribution) == DefaultStake
  {
    DiscoverCharacterised(es, minProfit, o);
    var ms := Matches(es);
    var i, j :| 0 <= i < |ms| && 0 <= j < |Markets(ms[i].items)| && FromMarket(ms[i].header, Markets(ms[i].items)[j], minProfit, o);
    var m := Markets(ms[i].items)[j];
    OpportunityIsSound(ms[i].header, m.key, m.items, minProfit);
  }

  /** Lines 191-197: an (outcome, bookmaker) pair is in the table exactly when some quote carries it. */
  lemma {:induction false} OddsByOutcomePresence(qs: seq<Quote>, o: string, b: string)
    ensures (o in OddsByOutcome(qs) && b in OddsByOutcome(qs)[o]) <==>
      exists k :: 0 <= k < |qs| && qs[k].outcome == o && qs[k].bookmaker == b
    ensures o in OddsByOutcome(qs) <==> exists k :: 0 <= k < |qs| && qs[k].outcome == o
  {
    if |qs| > 0 {
      var p := qs[..|qs| - 1];
      OddsByOutcomePresence(p, o, b);
      assert forall k :: 0 <= k < |p| ==> p[k] == qs[k];
    }
  }

  /** Lines 191-197: the odds kept for a pair are those of its last quote. */
  lemma {:induction false} OddsByOutcomeLastWins(qs: seq<Quote>, k: int)
    requires 0 <= k < |qs|
    requires forall j :: k < j < |qs| ==> qs[j].outcome != qs[k].outcome || qs[j].bookmaker != qs[k].bookmaker
    ensures qs[k].outcome in OddsByOutcome(qs) && qs[k].bookmaker in OddsByOutcome(qs)[qs[k].outcome]
    ensures OddsByOutcome(qs)[qs[k].outcome][qs[k].bookmaker] == qs[k].odds
  {
    var p := qs[..|qs| - 1];
    if k < |qs| - 1 {
      assert p[k] == qs[k];
      OddsByOutcomeLastWins(p, k);
    }
  }

  /** Lines 174-176: the type and the params are read back from a market key intact. */
  lemma KeyRoundTrip(t: string, p: Option<string>)
    requires ':' !in t && (Truthy(p) ==> ':' !in p.value)
    ensures KeyType(MarketKey(t, p)) == t
    ensures KeyParams(MarketKey(t, p)) == if Truthy(p) then Some(p.value) else None
  {
    if Truthy(p) {
      SplitPair(t, p.value, ':');
    } else {
      SplitWithoutSeparator(t, ':');
    }
  }

  /** Lines 179-185: the display name of a market built from its type and params. */
  lemma DisplayMarketOfKey(t: string, p: Option<string>)
    requires ':' !in t && (Truthy(p) ==> ':' !in p.value)
    ensures DisplayMarket(MarketKey(t, p))
      == if !Truthy(p) then t
         else if Lower(t) == "over_under" then "Over/Under " + p.value
         else t + " " + p.value
  {
    KeyRoundTrip(t, p);
  }

  /** Lines 212-217: outcome names of an over/under market with params gain the line. */
  lemma DisplayOutcomeOfKey(outcome: string, t: string, p: Option<string>)
    requires ':' !in t && (Truthy(p) ==> ':' !in p.value)
    ensures DisplayOutcome(outcome, MarketKey(t, p))
      == if Lower(t) == "over_under" && Truthy(p) && Lower(outcome) == "over" then "Over " + p.value
         else if Lower(t) == "over_under" && Truthy(p) && Lower(outcome) == "under" then "Under " + p.value
         else outcome
  {
    KeyRoundTrip(t, p);
  }

  /**
   * Lines 174-185: params holding ':' are cut at their first ':' in the display
   * name, because the market key is split again on every ':'; whatever follows
   * is lost.
   */
  lemma DisplayMarketTruncates(t: string, a: string, b: string)
    requires ':' !in t && ':' !in a && ':' !in b && a != ""
    ensures MarketKey(t, Some(a + ":" + b)) == t + ":" + a + ":" + b
    ensures DisplayMarket(MarketKey(t, Some(a + ":" + b)))
      == if Lower(t) == "over_under" then "Over/Under " + a else t + " " + a
  {
    var k := MarketKey(t, Some(a + ":" + b));
    assert k == t + [':'] + (a + [':'] + b);
    SplitAfterPiece(t, a + [':'] + b, ':');
    SplitPair(a, b, ':');
    assert Split(k, ':') == [t, a, b];
  }
}
