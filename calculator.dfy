/**
 * The arbitrage evaluator and stake allocator of
 * backend/app/services/arbitrage_calculator.py: `calculate_arbitrage` and
 * `calculate_stakes`. Odds and money are exact reals.
 */
module ArbitrageCalculator {
  import opened Wrappers

  /**
   * Decimal odds. The source never validates them and divides by the best odds
   * of every outcome, so the model only admits positive values.
   */
  type Odds = r: real | r > 0.0 witness 1.0

  /** One entry of `odds_data`: a bookmaker's odds on one outcome. */
  datatype Quote = Quote(bookmaker: string, outcome: string, odds: Odds)

  /** The best price kept for one outcome, an entry of the `outcomes` / `best_odds` dictionary. */
  datatype Best = Best(outcome: string, odds: Odds, bookmaker: string)

  /** The pair `(arbitrage_exists, arbitrage_percentage)`. */
  datatype Evaluation = Evaluation(found: bool, percentage: real)

  /** One entry of `stake_distribution`, keyed by its outcome. */
  datatype Stake = Stake(outcome: string, stake: real, bookmaker: string, odds: Odds)

  /** Dictionary lookup by outcome: the position of the entry for `outcome`, or -1 when there is none. */
  function IndexOfOutcome(bs: seq<Best>, outcome: string): (i: int)
    ensures -1 <= i < |bs|
    ensures i == -1 <==> forall j :: 0 <= j < |bs| ==> bs[j].outcome != outcome
    ensures 0 <= i ==> bs[i].outcome == outcome && forall j :: 0 <= j < i ==> bs[j].outcome != outcome
  {
    if |bs| == 0 then -1
    else if bs[0].outcome == outcome then 0
    else
      var k := IndexOfOutcome(bs[1..], outcome);
      if k == -1 then -1 else k + 1
  }

  /**
   * One pass of the best-odds loop: a quote for a new outcome is appended; a quote
   * for a known outcome replaces the kept entry only when its odds are strictly greater.
   */
  function Retain(bs: seq<Best>, q: Quote): seq<Best>
  {
    var i := IndexOfOutcome(bs, q.outcome);
    if i == -1 then bs + [Best(q.outcome, q.odds, q.bookmaker)]
    else if q.odds > bs[i].odds then bs[i := Best(q.outcome, q.odds, q.bookmaker)]
    else bs
  }

  /** The best-odds dictionary built from `qs` in input order. */
  function BestOdds(qs: seq<Quote>): seq<Best>
  {
    if |qs| == 0 then [] else Retain(BestOdds(qs[..|qs| - 1]), qs[|qs| - 1])
  }

  /** 1/odds, the share of the stake an outcome needs per unit returned. */
  function Recip(odds: Odds): (r: real)
    ensures r > 0.0
  {
    1.0 / odds
  }

  /** The sum of 1/odds over the kept entries. */
  function SumReciprocal(bs: seq<Best>): (s: real)
    ensures s >= 0.0
    ensures |bs| > 0 ==> s > 0.0
  {
    if |bs| == 0 then 0.0 else SumReciprocal(bs[..|bs| - 1]) + Recip(bs[|bs| - 1].odds)
  }

  /** The arbitrage percentage of a best-odds table, (1 - sum of 1/odds) * 100. */
  function Percentage(bs: seq<Best>): real
  {
    (1.0 - SumReciprocal(bs)) * 100.0
  }

  /**
   * `calculate_arbitrage` as a function. The guard counts quotes, not distinct
   * outcomes: two quotes on the same outcome already pass it.
   */
  function Evaluate(qs: seq<Quote>): (r: Evaluation)
  {
    if |qs| < 2 then Evaluation(false, 0.0)
    else
      var p := Percentage(BestOdds(qs));
      Evaluation(p > 0.0, p)
  }

  /** The best-odds loop shared by `calculate_arbitrage` (lines 20-30) and `calculate_stakes` (lines 59-69). */
  method CollectBestOdds(qs: seq<Quote>) returns (best: seq<Best>)
    ensures best == BestOdds(qs)
  {
    best := [];
    for k := 0 to |qs|
      invariant best == BestOdds(qs[..k])
    {
      var q := qs[k];
      var i := IndexOfOutcome(best, q.outcome);
      if i == -1 || q.odds > best[i].odds {
        var entry := Best(q.outcome, q.odds, q.bookmaker);
        if i == -1 {
          best := best + [entry];
        } else {
          best := best[i := entry];
        }
      }
      assert qs[..k + 1][..k] == qs[..k];
    }
    assert qs[..|qs|] == qs;
  }

  /** `calculate_arbitrage(odds_data)`. */
  method CalculateArbitrage(qs: seq<Quote>) returns (found: bool, percentage: real)
    ensures Evaluation(found, percentage) == Evaluate(qs)
    ensures found <==> percentage > 0.0
    ensures |qs| < 2 ==> !found && percentage == 0.0
    ensures |qs| >= 2 ==> percentage == (1.0 - SumReciprocal(BestOdds(qs))) * 100.0
  {
    if |qs| < 2 {
      return false, 0.0;
    }
    var best := CollectBestOdds(qs);
    percentage := (1.0 - SumReciprocal(best)) * 100.0;
    found := percentage > 0.0;
  }

  /**
   * The stake distribution for a best-odds table: each outcome gets
   * total * (1/odds) / s, where s is the sum of reciprocals, so that every
   * outcome pays back the same total / s.
   */
  function Allocation(bs: seq<Best>, total: real): (r: seq<Stake>)
    ensures |r| == |bs|
    ensures forall k :: 0 <= k < |bs| ==>
      r[k].outcome == bs[k].outcome && r[k].bookmaker == bs[k].bookmaker && r[k].odds == bs[k].odds
  {
    var s := SumReciprocal(bs);
    seq(|bs|, k requires 0 <= k < |bs| => StakeFor(bs[k], total, s))
  }

  /** The stake on one kept entry. */
  function StakeFor(b: Best, total: real, s: real): (r: Stake)
    requires s > 0.0
  {
    Stake(b.outcome, StakeAmount(total, b.odds, s), b.bookmaker, b.odds)
  }

  /** Line 82: stake_i = (total_stake * (1/odds_i)) / sum(1/odds_i). */
  function StakeAmount(total: real, odds: Odds, s: real): real
    requires s > 0.0
  {
    total * Recip(odds) / s
  }

  /** A stake proportional to 1/odds pays back total / s whatever the odds. */
  lemma EqualReturn(odds: Odds, total: real, s: real)
    requires s > 0.0
    ensures StakeAmount(total, odds, s) * odds == total / s
  {
    assert total * Recip(odds) / s == total / (odds * s);
  }

  /** Line 92: expected_profit = total_stake * (arbitrage_percentage / 100). */
  function ExpectedProfit(total: real, percentage: real): real
  {
    total * (percentage / 100.0)
  }

  /** Line 209: what a stake pays back when its outcome wins. */
  function Payout(d: Stake): real
  {
    d.stake * d.odds
  }

  /** Total money placed by a stake distribution. */
  function TotalStaked(ds: seq<Stake>): real
  {
    if |ds| == 0 then 0.0 else TotalStaked(ds[..|ds| - 1]) + ds[|ds| - 1].stake
  }

  /**
   * `calculate_stakes(odds_data, total_stake, arbitrage_percentage)`, with
   * `given` the optional pre-computed percentage. Without it the method runs the
   * evaluator first and returns an empty distribution and profit 0 when no
   * arbitrage exists; with it, no existence check is made.
   */
  method CalculateStakes(qs: seq<Quote>, total: real, given: Option<real>)
    returns (distribution: seq<Stake>, profit: real)
    ensures given.None? && !Evaluate(qs).found ==> distribution == [] && profit == 0.0
    ensures given.None? && Evaluate(qs).found ==>
      distribution == Allocation(BestOdds(qs), total) && profit == ExpectedProfit(total, Evaluate(qs).percentage)
    ensures given.Some? ==>
      distribution == Allocation(BestOdds(qs), total) && profit == ExpectedProfit(total, given.value)
  {
    var percentage: real;
    if given.None? {
      var found;
      found, percentage := CalculateArbitrage(qs);
      if !found {
        return [], 0.0;
      }
    } else {
      percentage := given.value;
    }
    var best := CollectBestOdds(qs);
    distribution := DistributeStakes(best, total);
    profit := ExpectedProfit(total, percentage);
  }

  /** The stake loop of `calculate_stakes` (lines 72-88), unrounded. */
  method DistributeStakes(best: seq<Best>, total: real) returns (distribution: seq<Stake>)
    ensures distribution == Allocation(best, total)
  {
    var s := SumReciprocal(best);
    distribution := [];
    for k := 0 to |best|
      invariant distribution == Allocation(best, total)[..k]
    {
      var b := best[k];
      var stake := StakeAmount(total, b.odds, s);
      assert Allocation(best, total)[k] == StakeFor(b, total, s);
      distribution := distribution + [Stake(b.outcome, stake, b.bookmaker, b.odds)];
      assert Allocation(best, total)[..k + 1] == Allocation(best, total)[..k] + [Allocation(best, total)[k]];
    }
  }
}
