/**
 * The rest of `find_arbitrage_opportunities`
 * (backend/app/services/arbitrage_calculator.py, lines 96-247): every market of
 * every match is evaluated, each one whose percentage reaches the threshold
 * becomes an opportunity with display labels, the set of bookmakers involved,
 * the odds by outcome and bookmaker, and stakes for a 10000 total; the list is
 * finally sorted by percentage, highest first.
 */
module OpportunityFinder {
  import opened Wrappers
  import opened Text
  import opened ArbitrageCalculator
  import opened Grouping
  import opened EventGrouping
  import opened Ranking

  /** Line 200: the total stake every opportunity is priced for. */
  const DefaultStake: real := 10000.0

  /** Line 98: the default threshold on the arbitrage percentage. */
  const DefaultMinProfit: real := 0.5

  /** One entry of `stake_details`. */
  datatype StakeDetail = StakeDetail(outcome: string, bookmaker: string, odds: Odds, stake: real, potentialReturn: real)

  /**
   * The opportunity dictionary of lines 227-240. `bookmakers` is a set because
   * the source builds the list through `set(...)`, whose order Python leaves open.
   */
  datatype Opportunity = Opportunity(
    homeTeam: string, awayTeam: string, league: string, startTime: string,
    marketType: string, bookmakers: set<string>, odds: map<string, map<string, Odds>>,
    arbitragePercentage: real, stakeDistribution: seq<Stake>, stakeDetails: seq<StakeDetail>,
    totalStake: real, expectedProfit: real)

  /** Lines 174-175: the market type read back from a market key. */
  function KeyType(key: string): string
  {
    Split(key, ':')[0]
  }

  /** Line 176: the params read back from a market key, None when it has no second piece. */
  function KeyParams(key: string): Option<string>
  {
    var parts := Split(key, ':');
    if |parts| > 1 then Some(parts[1]) else None
  }

  predicate IsOverUnder(marketType: string)
  {
    Lower(marketType) == "over_under"
  }

  /** Lines 179-185: the display name of a market. */
  function DisplayMarket(key: string): string
  {
    var t, p := KeyType(key), KeyParams(key);
    if !Truthy(p) then t
    else if IsOverUnder(t) then "Over/Under " + p.value
    else t + " " + p.value
  }

  /** Lines 212-217: the display name of an outcome within the market `key`. */
  function DisplayOutcome(outcome: string, key: string): string
  {
    var t, p := KeyType(key), KeyParams(key);
    if IsOverUnder(t) && Truthy(p) then
      if Lower(outcome) == "over" then "Over " + p.value
      else if Lower(outcome) == "under" then "Under " + p.value
      else outcome
    else outcome
  }

  /** Line 188: every bookmaker quoting in the market. */
  function Bookmakers(qs: seq<Quote>): set<string>
  {
    set k | 0 <= k < |qs| :: qs[k].bookmaker
  }

  /** Lines 191-197: odds by outcome, then by bookmaker, later quotes overwriting earlier ones. */
  function OddsByOutcome(qs: seq<Quote>): map<string, map<string, Odds>>
  {
    if |qs| == 0 then map[]
    else
      var m := OddsByOutcome(qs[..|qs| - 1]);
      var q := qs[|qs| - 1];
      var inner := if q.outcome in m then m[q.outcome] else map[];
      m[q.outcome := inner[q.bookmaker := q.odds]]
  }

  /** Lines 205-225: the detail of one stake, with its potential return. */
  function Detail(d: Stake, key: string): StakeDetail
  {
    StakeDetail(DisplayOutcome(d.outcome, key), d.bookmaker, d.odds, d.stake, Payout(d))
  }

  function StakeDetails(ds: seq<Stake>, key: string): (r: seq<StakeDetail>)
    ensures |r| == |ds| && forall k :: 0 <= k < |ds| ==> r[k] == Detail(ds[k], key)
  {
    seq(|ds|, k requires 0 <= k < |ds| => Detail(ds[k], key))
  }

  /** Line 172: the market qualifies. */
  predicate Qualifies(qs: seq<Quote>, minProfit: real)
  {
    Evaluate(qs).found && Evaluate(qs).percentage >= minProfit
  }

  /** Lines 174-240: the opportunity of one market of one match. */
  function OpportunityFor(h: MatchHeader, key: string, qs: seq<Quote>): Opportunity
  {
    var pct := Evaluate(qs).percentage;
    var dist := Allocation(BestOdds(qs), DefaultStake);
    Opportunity(h.homeTeam, h.awayTeam, h.league, h.startTime, DisplayMarket(key),
      Bookmakers(qs), OddsByOutcome(qs), pct, dist, StakeDetails(dist, key), DefaultStake,
      ExpectedProfit(DefaultStake, pct))
  }

  /** Lines 169-242 for one match: its qualifying markets, in market order. */
  function MarketOpportunities(h: MatchHeader, mk: seq<MarketGroup>, minProfit: real): seq<Opportunity>
  {
    if |mk| == 0 then []
    else
      var m := mk[|mk| - 1];
      MarketOpportunities(h, mk[..|mk| - 1], minProfit)
        + (if Qualifies(m.items, minProfit) then [OpportunityFor(h, m.key, m.items)] else [])
  }

  /** Lines 141-242: the opportunities of all matches, in match order. */
  function MatchOpportunities(ms: seq<MatchGroup>, minProfit: real): seq<Opportunity>
  {
    if |ms| == 0 then []
    else
      var g := ms[|ms| - 1];
      MatchOpportunities(ms[..|ms| - 1], minProfit) + MarketOpportunities(g.header, Markets(g.items), minProfit)
  }

  /** The unsorted `opportunities` list. */
  function Discover(es: seq<Event>, minProfit: real): seq<Opportunity>
  {
    MatchOpportunities(Matches(es), minProfit)
  }

  /** Line 245: the sort key. */
  function Percent(o: Opportunity): real
  {
    o.arbitragePercentage
  }

  /** Lines 191-197. */
  method CollectOddsByOutcome(qs: seq<Quote>) returns (m: map<string, map<string, Odds>>)
    ensures m == OddsByOutcome(qs)
  {
    m := map[];
    for k := 0 to |qs|
      invariant m == OddsByOutcome(qs[..k])
    {
      var q := qs[k];
      if q.outcome !in m {
        m := m[q.outcome := map[]];
      }
      var inner: map<string, Odds> := m[q.outcome];
      m := m[q.outcome := inner[q.bookmaker := q.odds]];
      assert qs[..k + 1][..k] == qs[..k];
    }
    assert qs[..|qs|] == qs;
  }

  /** Lines 204-225. */
  method CollectStakeDetails(ds: seq<Stake>, key: string) returns (details: seq<StakeDetail>)
    ensures details == StakeDetails(ds, key)
  {
    details := [];
    for k := 0 to |ds|
      invariant details == StakeDetails(ds, key)[..k]
    {
      var d := ds[k];
      var potentialReturn := d.stake * d.odds;
      details := details + [StakeDetail(DisplayOutcome(d.outcome, key), d.bookmaker, d.odds, d.stake, potentialReturn)];
      assert StakeDetails(ds, key)[k] == Detail(d, key);
      assert Detail(d, key) == StakeDetail(DisplayOutcome(d.outcome, key), d.bookmaker, d.odds, d.stake, potentialReturn);
      assert StakeDetails(ds, key)[..k + 1] == StakeDetails(ds, key)[..k] + [StakeDetails(ds, key)[k]];
      assert details == StakeDetails(ds, key)[..k + 1];
    }
  }

  /** Lines 174-240, given the percentage `calculate_arbitrage` returned for the market. */
  method BuildOpportunity(h: MatchHeader, key: string, qs: seq<Quote>, pct: real) returns (o: Opportunity)
    requires pct == Evaluate(qs).percentage
    ensures o == OpportunityFor(h, key, qs)
  {
    var bookmakers := Bookmakers(qs);
    var byOutcome := CollectOddsByOutcome(qs);
    var dist, profit := CalculateStakes(qs, DefaultStake, Some(pct));
    var details := CollectStakeDetails(dist, key);
    o := Opportunity(h.homeTeam, h.awayTeam, h.league, h.startTime, DisplayMarket(key),
      bookmakers, byOutcome, pct, dist, details, DefaultStake, profit);
  }

  /** Lines 169-242: evaluates every market of one match. */
  method CollectMarketOpportunities(h: MatchHeader, mk: seq<MarketGroup>, minProfit: real) returns (found: seq<Opportunity>)
    ensures found == MarketOpportunities(h, mk, minProfit)
  {
    found := [];
    for j := 0 to |mk|
      invariant found == MarketOpportunities(h, mk[..j], minProfit)
    {
      var m := mk[j];
      var arbExists, pct := CalculateArbitrage(m.items);
      if arbExists && pct >= minProfit {
        var o := BuildOpportunity(h, m.key, m.items, pct);
        found := found + [o];
      }
      assert mk[..j + 1][..j] == mk[..j];
    }
    assert mk[..|mk|] == mk;
  }

  /** Lines 141-242: groups and evaluates the markets of every match. */
  method CollectOpportunities(ms: seq<MatchGroup>, minProfit: real) returns (found: seq<Opportunity>)
    ensures found == MatchOpportunities(ms, minProfit)
  {
    found := [];
    for i := 0 to |ms|
      invariant found == MatchOpportunities(ms[..i], minProfit)
    {
      var g := ms[i];
      var mk := GroupByMarket(g.items);
      var more := CollectMarketOpportunities(g.header, mk, minProfit);
      found := found + more;
      assert ms[..i + 1][..i] == ms[..i];
    }
    assert ms[..|ms|] == ms;
  }

  /**
   * `find_arbitrage_opportunities(events_data, min_profit_percentage)`: the
   * discovered opportunities, stably sorted by percentage, highest first.
   */
  method FindArbitrageOpportunities(es: seq<Event>, minProfit: real) returns (opps: seq<Opportunity>)
    ensures opps == SortDesc(Discover(es, minProfit), Percent)
    ensures Descending(opps, Percent)
    ensures multiset(opps) == multiset(Discover(es, minProfit))
    ensures |opps| == |Discover(es, minProfit)|
    ensures forall v :: WithKey(opps, v, Percent) == WithKey(Discover(es, minProfit), v, Percent)
  {
    var ms := GroupByMatch(es);
    var found := CollectOpportunities(ms, minProfit);
    var a := new Opportunity[|found|](k requires 0 <= k < |found| => found[k]);
    assert a[..] == found;
    SortInPlace(a, Percent);
    opps := a[..];
    SortDescIsDescending(found, Percent);
    SortDescPermutes(found, Percent);
    forall v ensures WithKey(opps, v, Percent) == WithKey(found, v, Percent) {
      SortDescIsStable(found, v, Percent);
    }
  }
}
