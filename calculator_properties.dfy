/**
 * What `calculate_arbitrage` and `calculate_stakes` promise, stated over the
 * specification functions of ArbitrageCalculator.
 */
module CalculatorProperties {
  import opened ArbitrageCalculator

  ghost function OutcomeSet(qs: seq<Quote>): set<string>
  {
    set i | 0 <= i < |qs| :: qs[i].outcome
  }

  ghost function TableOutcomes(bs: seq<Best>): set<string>
  {
    set k | 0 <= k < |bs| :: bs[k].outcome
  }

  ghost predicate DistinctOutcomes(bs: seq<Best>)
  {
    forall j, k :: 0 <= j < k < |bs| ==> bs[j].outcome != bs[k].outcome
  }

  /** `qs[i]` has the highest odds of its outcome, and every earlier quote on that outcome is strictly lower. */
  ghost predicate FirstMaximum(qs: seq<Quote>, i: int)
    requires 0 <= i < |qs|
  {
    && (forall j :: 0 <= j < |qs| && qs[j].outcome == qs[i].outcome ==> qs[j].odds <= qs[i].odds)
    && (forall j :: 0 <= j < i && qs[j].outcome == qs[i].outcome ==> qs[j].odds < qs[i].odds)
  }

  /** The entry `b` is the first quote, in input order, carrying the maximum odds of its outcome. */
  ghost predicate KeptFrom(qs: seq<Quote>, b: Best)
  {
    exists i :: 0 <= i < |qs| && qs[i] == Quote(b.bookmaker, b.outcome, b.odds) && FirstMaximum(qs, i)
  }

  /** `m` is the highest odds quoted on outcome `o`. */
  ghost predicate IsMaxOdds(qs: seq<Quote>, o: string, m: real)
  {
    && (exists i :: 0 <= i < |qs| && qs[i].outcome == o && qs[i].odds == m)
    && (forall i :: 0 <= i < |qs| && qs[i].outcome == o ==> qs[i].odds <= m)
  }

  lemma KeptIsMax(qs: seq<Quote>, b: Best)
    requires KeptFrom(qs, b)
    ensures IsMaxOdds(qs, b.outcome, b.odds)
  {
    var i :| 0 <= i < |qs| && qs[i] == Quote(b.bookmaker, b.outcome, b.odds) && FirstMaximum(qs, i);
    assert qs[i].outcome == b.outcome && qs[i].odds == b.odds;
  }

  lemma MaxIsUnique(qs: seq<Quote>, o: string, m1: real, m2: real)
    requires IsMaxOdds(qs, o, m1) && IsMaxOdds(qs, o, m2)
    ensures m1 == m2
  {
    var i1 :| 0 <= i1 < |qs| && qs[i1].outcome == o && qs[i1].odds == m1;
    var i2 :| 0 <= i2 < |qs| && qs[i2].outcome == o && qs[i2].odds == m2;
  }

  /** A kept entry stays kept when a quote that does not beat it is appended. */
  lemma KeptAfterAppend(p: seq<Quote>, q: Quote, b: Best)
    requires KeptFrom(p, b)
    requires q.outcome == b.outcome ==> q.odds <= b.odds
    ensures KeptFrom(p + [q], b)
  {
    var qs := p + [q];
    var i :| 0 <= i < |p| && p[i] == Quote(b.bookmaker, b.outcome, b.odds) && FirstMaximum(p, i);
    assert qs[i] == p[i];
    forall j | 0 <= j < |qs| && qs[j].outcome == qs[i].outcome ensures qs[j].odds <= qs[i].odds {
      if j < |p| { assert qs[j] == p[j]; }
    }
    forall j | 0 <= j < i && qs[j].outcome == qs[i].outcome ensures qs[j].odds < qs[i].odds {
      assert qs[j] == p[j];
    }
    assert FirstMaximum(qs, i);
  }

  /** An appended quote that beats every earlier quote on its outcome is kept. */
  lemma KeptLast(p: seq<Quote>, q: Quote)
    requires forall j :: 0 <= j < |p| && p[j].outcome == q.outcome ==> p[j].odds < q.odds
    ensures KeptFrom(p + [q], Best(q.outcome, q.odds, q.bookmaker))
  {
    var qs := p + [q];
    var i := |p|;
    assert qs[i] == q;
    forall j | 0 <= j < |qs| && qs[j].outcome == qs[i].outcome ensures qs[j].odds <= qs[i].odds {
      if j < |p| { assert qs[j] == p[j]; }
    }
    forall j | 0 <= j < i && qs[j].outcome == qs[i].outcome ensures qs[j].odds < qs[i].odds {
      assert qs[j] == p[j];
    }
    assert FirstMaximum(qs, i);
  }

  /** Every quote on the outcome of a kept entry is at most the kept odds. */
  lemma KeptBound(qs: seq<Quote>, b: Best, j: int)
    requires KeptFrom(qs, b) && 0 <= j < |qs| && qs[j].outcome == b.outcome
    ensures qs[j].odds <= b.odds
  {
    KeptIsMax(qs, b);
  }

  /** `bs` is a best-odds table for `qs`: one entry per distinct outcome, each its first maximum. */
  ghost predicate TableFor(qs: seq<Quote>, bs: seq<Best>)
  {
    && DistinctOutcomes(bs)
    && TableOutcomes(bs) == OutcomeSet(qs)
    && (forall k :: 0 <= k < |bs| ==> KeptFrom(qs, bs[k]))
  }

  lemma OutcomeSetAppend(p: seq<Quote>, q: Quote)
    ensures OutcomeSet(p + [q]) == OutcomeSet(p) + {q.outcome}
  {
    var qs := p + [q];
    forall o | o in OutcomeSet(qs) ensures o in OutcomeSet(p) + {q.outcome} {
      var j :| 0 <= j < |qs| && qs[j].outcome == o;
      if j < |p| { assert p[j] == qs[j]; }
    }
    forall o | o in OutcomeSet(p) ensures o in OutcomeSet(qs) {
      var j :| 0 <= j < |p| && p[j].outcome == o;
      assert qs[j] == p[j];
    }
    assert qs[|p|] == q;
  }

  /** A quote on a new outcome is appended to the table. */
  lemma RetainNew(p: seq<Quote>, q: Quote, bs: seq<Best>)
    requires TableFor(p, bs) && IndexOfOutcome(bs, q.outcome) == -1
    ensures TableFor(p + [q], Retain(bs, q))
  {
    var nb := Best(q.outcome, q.odds, q.bookmaker);
    var r := Retain(bs, q);
    assert r == bs + [nb];
    OutcomeSetAppend(p, q);
    assert q.outcome !in OutcomeSet(p);
    forall j | 0 <= j < |p| ensures p[j].outcome != q.outcome {
      assert p[j].outcome in OutcomeSet(p);
    }
    KeptLast(p, q);
    forall k | 0 <= k < |r| ensures KeptFrom(p + [q], r[k]) {
      if k < |bs| { KeptAfterAppend(p, q, bs[k]); }
    }
    TableOutcomesAppend(bs, nb);
  }

  lemma TableOutcomesAppend(bs: seq<Best>, nb: Best)
    ensures TableOutcomes(bs + [nb]) == TableOutcomes(bs) + {nb.outcome}
  {
    var r := bs + [nb];
    forall o | o in TableOutcomes(r) ensures o in TableOutcomes(bs) + {nb.outcome} {
      var k :| 0 <= k < |r| && r[k].outcome == o;
      if k < |bs| { assert r[k] == bs[k]; }
    }
    forall o | o in TableOutcomes(bs) ensures o in TableOutcomes(r) {
      var k :| 0 <= k < |bs| && bs[k].outcome == o;
      assert r[k] == bs[k];
    }
    assert r[|bs|] == nb;
  }

  lemma TableOutcomesUpdate(bs: seq<Best>, i: int, nb: Best)
    requires 0 <= i < |bs| && nb.outcome == bs[i].outcome
    ensures TableOutcomes(bs[i := nb]) == TableOutcomes(bs)
    ensures DistinctOutcomes(bs) ==> DistinctOutcomes(bs[i := nb])
  {
    var r := bs[i := nb];
    forall o | o in TableOutcomes(r) ensures o in TableOutcomes(bs) {
      var k :| 0 <= k < |r| && r[k].outcome == o;
      assert bs[k].outcome == o;
    }
    forall o | o in TableOutcomes(bs) ensures o in TableOutcomes(r) {
      var k :| 0 <= k < |bs| && bs[k].outcome == o;
      assert r[k].outcome == o;
    }
  }

  /** A quote strictly beating the kept entry of its outcome replaces it in place. */
  lemma RetainReplace(p: seq<Quote>, q: Quote, bs: seq<Best>)
    requires TableFor(p, bs)
    requires var i := IndexOfOutcome(bs, q.outcome); i >= 0 && q.odds > bs[i].odds
    ensures TableFor(p + [q], Retain(bs, q))
  {
    var i := IndexOfOutcome(bs, q.outcome);
    var nb := Best(q.outcome, q.odds, q.bookmaker);
    var r := Retain(bs, q);
    assert r == bs[i := nb];
    OutcomeSetAppend(p, q);
    assert bs[i].outcome in TableOutcomes(bs);
    forall j | 0 <= j < |p| && p[j].outcome == q.outcome ensures p[j].odds < q.odds {
      KeptBound(p, bs[i], j);
    }
    KeptLast(p, q);
    forall k | 0 <= k < |r| ensures KeptFrom(p + [q], r[k]) {
      if k != i { KeptAfterAppend(p, q, bs[k]); }
    }
    TableOutcomesUpdate(bs, i, nb);
  }

  /** A quote that does not beat the kept entry of its outcome leaves the table as it is. */
  lemma RetainKeep(p: seq<Quote>, q: Quote, bs: seq<Best>)
    requires TableFor(p, bs)
    requires var i := IndexOfOutcome(bs, q.outcome); i >= 0 && q.odds <= bs[i].odds
    ensures TableFor(p + [q], Retain(bs, q))
  {
    var i := IndexOfOutcome(bs, q.outcome);
    assert Retain(bs, q) == bs;
    OutcomeSetAppend(p, q);
    assert bs[i].outcome in TableOutcomes(bs);
    forall k | 0 <= k < |bs| ensures KeptFrom(p + [q], bs[k]) {
      KeptAfterAppend(p, q, bs[k]);
    }
  }

  lemma {:induction false} BestOddsTable(qs: seq<Quote>)
    ensures TableFor(qs, BestOdds(qs))
  {
    if |qs| > 0 {
      var p, q := qs[..|qs| - 1], qs[|qs| - 1];
      assert qs == p + [q];
      BestOddsTable(p);
      var bs := BestOdds(p);
      var i := IndexOfOutcome(bs, q.outcome);
      if i == -1 {
        RetainNew(p, q, bs);
      } else if q.odds > bs[i].odds {
        RetainReplace(p, q, bs);
      } else {
        RetainKeep(p, q, bs);
      }
    }
  }

  /**
   * Lines 20-30 and 59-69: the best-odds table holds exactly one entry per
   * distinct outcome, and each entry is the first quote with the maximum odds of
   * its outcome, with that quote's bookmaker.
   */
  lemma BestOddsAreFirstMaxima(qs: seq<Quote>)
    ensures DistinctOutcomes(BestOdds(qs))
    ensures TableOutcomes(BestOdds(qs)) == OutcomeSet(qs)
    ensures forall k :: 0 <= k < |BestOdds(qs)| ==> KeptFrom(qs, BestOdds(qs)[k])
  {
    BestOddsTable(qs);
  }

  lemma {:induction false} SumReciprocalAppend(x: seq<Best>, y: seq<Best>)
    ensures SumReciprocal(x + y) == SumReciprocal(x) + SumReciprocal(y)
  {
    if |y| == 0 {
      assert x + y == x;
    } else {
      var y' := y[..|y| - 1];
      SumReciprocalAppend(x, y');
      assert (x + y)[..|x + y| - 1] == x + y';
    }
  }

  /** The table without its entry at `j`. */
  function Without(b: seq<Best>, j: int): (r: seq<Best>)
    requires 0 <= j < |b|
    ensures |r| == |b| - 1
    ensures forall t :: 0 <= t < |r| ==> r[t] == b[if t < j then t else t + 1]
  {
    b[..j] + b[j + 1..]
  }

  lemma {:induction false} SumReciprocalRemove(b: seq<Best>, j: int)
    requires 0 <= j < |b|
    ensures SumReciprocal(b) == SumReciprocal(Without(b, j)) + Recip(b[j].odds)
  {
    var n := |b| - 1;
    var b' := b[..n];
    if j == n {
      assert Without(b, j) == b';
    } else {
      SumReciprocalRemove(b', j);
      var w := Without(b, j);
      assert w[..|w| - 1] == Without(b', j);
      assert w[|w| - 1] == b[n];
    }
  }

  /** Some entry of `b` prices outcome `o` at `m`. */
  ghost predicate HasPrice(b: seq<Best>, o: string, m: real)
  {
    exists j :: 0 <= j < |b| && b[j].outcome == o && b[j].odds == m
  }

  /** Every entry of `a` has an entry with the same outcome and odds in `b`. */
  ghost predicate PricedIn(a: seq<Best>, b: seq<Best>)
  {
    forall i :: 0 <= i < |a| ==> HasPrice(b, a[i].outcome, a[i].odds)
  }

  lemma PricedInLength(a: seq<Best>, b: seq<Best>)
    requires PricedIn(a, b)
    ensures |a| > 0 ==> |b| > 0
  {
    if |a| > 0 {
      assert HasPrice(b, a[0].outcome, a[0].odds);
    }
  }

  lemma PricedInAfterRemoval(a: seq<Best>, b: seq<Best>, j: int)
    requires DistinctOutcomes(a) && PricedIn(a, b) && |a| > 0
    requires 0 <= j < |b| && b[j].outcome == a[|a| - 1].outcome
    ensures PricedIn(a[..|a| - 1], Without(b, j))
  {
    var a', b' := a[..|a| - 1], Without(b, j);
    forall i | 0 <= i < |a'| ensures HasPrice(b', a'[i].outcome, a'[i].odds) {
      assert a'[i] == a[i];
      assert HasPrice(b, a[i].outcome, a[i].odds);
      var t :| 0 <= t < |b| && b[t].outcome == a[i].outcome && b[t].odds == a[i].odds;
      assert t != j;
      var t' := if t < j then t else t - 1;
      assert b'[t'] == b[t];
    }
  }

  lemma PricedInBackAfterRemoval(a: seq<Best>, b: seq<Best>, j: int)
    requires DistinctOutcomes(b) && PricedIn(b, a) && |a| > 0
    requires 0 <= j < |b| && b[j].outcome == a[|a| - 1].outcome
    ensures PricedIn(Without(b, j), a[..|a| - 1])
  {
    var a', b' := a[..|a| - 1], Without(b, j);
    forall t | 0 <= t < |b'| ensures HasPrice(a', b'[t].outcome, b'[t].odds) {
      var t' := if t < j then t else t + 1;
      assert b'[t] == b[t'];
      assert HasPrice(a, b[t'].outcome, b[t'].odds);
      var i :| 0 <= i < |a| && a[i].outcome == b[t'].outcome && a[i].odds == b[t'].odds;
      assert i != |a| - 1;
      assert a'[i] == a[i];
    }
  }

  lemma DistinctWithout(b: seq<Best>, j: int)
    requires DistinctOutcomes(b) && 0 <= j < |b|
    ensures DistinctOutcomes(Without(b, j))
  {
    var b' := Without(b, j);
    forall u, v | 0 <= u < v < |b'| ensures b'[u].outcome != b'[v].outcome {
      var u' := if u < j then u else u + 1;
      var v' := if v < j then v else v + 1;
      assert b'[u] == b[u'] && b'[v] == b[v'];
    }
  }

  lemma DistinctPrefix(a: seq<Best>, n: int)
    requires DistinctOutcomes(a) && 0 <= n <= |a|
    ensures DistinctOutcomes(a[..n])
  {
    forall u, v | 0 <= u < v < n ensures a[..n][u].outcome != a[..n][v].outcome {
      assert a[..n][u] == a[u] && a[..n][v] == a[v];
    }
  }

  /** Two tables with the same outcome-to-odds pairs, in whatever order, have the same sum of reciprocals. */
  lemma {:induction false} SumReciprocalPermutation(a: seq<Best>, b: seq<Best>)
    requires DistinctOutcomes(a) && DistinctOutcomes(b)
    requires PricedIn(a, b) && PricedIn(b, a)
    ensures SumReciprocal(a) == SumReciprocal(b)
    decreases |a|
  {
    if |a| == 0 {
      PricedInLength(b, a);
    } else {
      var n := |a| - 1;
      assert HasPrice(b, a[n].outcome, a[n].odds);
      var j :| 0 <= j < |b| && b[j].outcome == a[n].outcome && b[j].odds == a[n].odds;
      SumReciprocalRemove(b, j);
      assert SumReciprocal(a) == SumReciprocal(a[..n]) + Recip(a[n].odds);
      PricedInAfterRemoval(a, b, j);
      PricedInBackAfterRemoval(a, b, j);
      DistinctWithout(b, j);
      DistinctPrefix(a, n);
      SumReciprocalPermutation(a[..n], Without(b, j));
    }
  }

  /** Quote lists whose outcomes have the same maximum odds. */
  ghost predicate SameMaxima(qs1: seq<Quote>, qs2: seq<Quote>)
  {
    && OutcomeSet(qs1) == OutcomeSet(qs2)
    && (forall o, m :: IsMaxOdds(qs1, o, m) ==> IsMaxOdds(qs2, o, m))
  }

  lemma SameMaximaPriced(qs1: seq<Quote>, qs2: seq<Quote>)
    requires SameMaxima(qs1, qs2)
    ensures PricedIn(BestOdds(qs1), BestOdds(qs2))
  {
    BestOddsAreFirstMaxima(qs1);
    BestOddsAreFirstMaxima(qs2);
    var b1, b2 := BestOdds(qs1), BestOdds(qs2);
    forall k | 0 <= k < |b1| ensures HasPrice(b2, b1[k].outcome, b1[k].odds) {
      var o := b1[k].outcome;
      assert o in TableOutcomes(b1);
      assert o in TableOutcomes(b2);
      var j :| 0 <= j < |b2| && b2[j].outcome == o;
      KeptIsMax(qs1, b1[k]);
      KeptIsMax(qs2, b2[j]);
      MaxIsUnique(qs2, o, b1[k].odds, b2[j].odds);
    }
  }

  /**
   * Lines 34-38: the result depends only on the per-outcome maxima, so the order
   * of the quotes and the quotes that are not best do not matter.
   */
  lemma PercentageDependsOnlyOnMaxima(qs1: seq<Quote>, qs2: seq<Quote>)
    requires |qs1| >= 2 <==> |qs2| >= 2
    requires OutcomeSet(qs1) == OutcomeSet(qs2)
    requires forall o, m :: IsMaxOdds(qs1, o, m) <==> IsMaxOdds(qs2, o, m)
    ensures Evaluate(qs1) == Evaluate(qs2)
  {
    BestOddsAreFirstMaxima(qs1);
    BestOddsAreFirstMaxima(qs2);
    SameMaximaPriced(qs1, qs2);
    SameMaximaPriced(qs2, qs1);
    SumReciprocalPermutation(BestOdds(qs1), BestOdds(qs2));
  }

  /** Pointwise the same outcomes, with the odds of `qs2` at least those of `qs1`. */
  ghost predicate Dominated(qs1: seq<Quote>, qs2: seq<Quote>)
  {
    && |qs1| == |qs2|
    && forall i :: 0 <= i < |qs1| ==> qs1[i].outcome == qs2[i].outcome && qs1[i].odds <= qs2[i].odds
  }

  ghost predicate TableDominated(b1: seq<Best>, b2: seq<Best>)
  {
    && |b1| == |b2|
    && forall k :: 0 <= k < |b1| ==> b1[k].outcome == b2[k].outcome && b1[k].odds <= b2[k].odds
  }

  lemma {:induction false} IndexOfSameOutcomes(b1: seq<Best>, b2: seq<Best>, o: string)
    requires TableDominated(b1, b2)
    ensures IndexOfOutcome(b1, o) == IndexOfOutcome(b2, o)
  {
    if |b1| > 0 && b1[0].outcome != o {
      IndexOfSameOutcomes(b1[1..], b2[1..], o);
    }
  }

  lemma {:induction false} BestOddsMonotone(qs1: seq<Quote>, qs2: seq<Quote>)
    requires Dominated(qs1, qs2)
    ensures TableDominated(BestOdds(qs1), BestOdds(qs2))
  {
    if |qs1| > 0 {
      var n := |qs1| - 1;
      assert Dominated(qs1[..n], qs2[..n]) by {
        forall i | 0 <= i < n ensures qs1[..n][i].outcome == qs2[..n][i].outcome && qs1[..n][i].odds <= qs2[..n][i].odds {
          assert qs1[..n][i] == qs1[i] && qs2[..n][i] == qs2[i];
        }
      }
      BestOddsMonotone(qs1[..n], qs2[..n]);
      RetainMonotone(BestOdds(qs1[..n]), BestOdds(qs2[..n]), qs1[n], qs2[n]);
    }
  }

  lemma DominatedAppend(b1: seq<Best>, b2: seq<Best>, c1: Best, c2: Best)
    requires TableDominated(b1, b2) && c1.outcome == c2.outcome && c1.odds <= c2.odds
    ensures TableDominated(b1 + [c1], b2 + [c2])
  {
  }

  lemma DominatedAt(b1: seq<Best>, b2: seq<Best>, i: int, c1: Best, c2: Best)
    requires TableDominated(b1, b2) && 0 <= i < |b1|
    requires c1.outcome == c2.outcome == b1[i].outcome && c1.odds <= c2.odds
    ensures TableDominated(b1[i := c1], b2[i := c2])
  {
  }

  lemma RetainMonotone(b1: seq<Best>, b2: seq<Best>, q1: Quote, q2: Quote)
    requires TableDominated(b1, b2) && q1.outcome == q2.outcome && q1.odds <= q2.odds
    ensures TableDominated(Retain(b1, q1), Retain(b2, q2))
  {
    IndexOfSameOutcomes(b1, b2, q1.outcome);
    var i := IndexOfOutcome(b1, q1.outcome);
    var n1, n2 := Best(q1.outcome, q1.odds, q1.bookmaker), Best(q2.outcome, q2.odds, q2.bookmaker);
    if i == -1 {
      assert Retain(b1, q1) == b1 + [n1] && Retain(b2, q2) == b2 + [n2];
      DominatedAppend(b1, b2, n1, n2);
    } else {
      var c1 := if q1.odds > b1[i].odds then n1 else b1[i];
      var c2 := if q2.odds > b2[i].odds then n2 else b2[i];
      assert Retain(b1, q1) == b1[i := c1] && Retain(b2, q2) == b2[i := c2];
      DominatedAt(b1, b2, i, c1, c2);
    }
  }

  lemma ReciprocalAntitone(x: Odds, y: Odds)
    requires x <= y
    ensures Recip(y) <= Recip(x)
  {
    assert 1.0 / y == (1.0 / x) * (x / y);
    assert x / y <= 1.0;
  }

  lemma {:induction false} SumReciprocalAntitone(b1: seq<Best>, b2: seq<Best>)
    requires TableDominated(b1, b2)
    ensures SumReciprocal(b2) <= SumReciprocal(b1)
  {
    if |b1| > 0 {
      var n := |b1| - 1;
      SumReciprocalAntitone(b1[..n], b2[..n]);
      ReciprocalAntitone(b1[n].odds, b2[n].odds);
    }
  }

  /** Raising any quotes' odds, outcomes unchanged, never lowers the percentage. */
  lemma RaisingOddsNeverLowersPercentage(qs1: seq<Quote>, qs2: seq<Quote>)
    requires Dominated(qs1, qs2)
    ensures Evaluate(qs1).percentage <= Evaluate(qs2).percentage
    ensures Evaluate(qs1).found ==> Evaluate(qs2).found
  {
    BestOddsMonotone(qs1, qs2);
    SumReciprocalAntitone(BestOdds(qs1), BestOdds(qs2));
  }

  /** The single-quote case: raising one quote's odds never lowers the percentage. */
  lemma RaisingOneQuote(qs: seq<Quote>, k: int, v: Odds)
    requires 0 <= k < |qs| && qs[k].odds <= v
    ensures Evaluate(qs).percentage <= Evaluate(qs[k := qs[k].(odds := v)]).percentage
  {
    RaisingOddsNeverLowersPercentage(qs, qs[k := qs[k].(odds := v)]);
  }

  lemma RecipBelowOne(x: Odds)
    requires x > 1.0
    ensures Recip(x) < 1.0
  {
    assert Recip(x) * x == 1.0;
  }

  lemma SumReciprocalSingle(b: Best)
    ensures SumReciprocal([b]) == Recip(b.odds)
  {
    assert [b][..0] == [];
  }

  lemma SumReciprocalPair(b1: Best, b2: Best)
    ensures SumReciprocal([b1, b2]) == Recip(b1.odds) + Recip(b2.odds)
  {
    assert [b1, b2][..1] == [b1];
    SumReciprocalSingle(b1);
  }

  lemma BestOddsSingle(a: Quote)
    ensures BestOdds([a]) == [Best(a.outcome, a.odds, a.bookmaker)]
  {
    assert [a][..0] == [];
  }

  /**
   * Line 16 counts quotes, not outcomes: two quotes on one and the same outcome
   * pass the guard, and with odds above 1 they are reported as arbitrage.
   */
  lemma TwoQuotesOnOneOutcome(a: Quote, b: Quote)
    requires a.outcome == b.outcome && a.odds > 1.0 && b.odds > 1.0
    ensures Evaluate([a, b]).found
  {
    assert [a, b][..1] == [a];
    BestOddsSingle(a);
    var bs := BestOdds([a, b]);
    assert bs == [Best(a.outcome, a.odds, a.bookmaker)] || bs == [Best(b.outcome, b.odds, b.bookmaker)];
    SumReciprocalSingle(bs[0]);
    RecipBelowOne(bs[0].odds);
  }

  /** Two outcomes both priced at the break-even 2.0 give no arbitrage and 0 percent. */
  lemma BreakEven(a: Quote, b: Quote)
    requires a.outcome != b.outcome && a.odds == 2.0 && b.odds == 2.0
    ensures Evaluate([a, b]) == Evaluation(false, 0.0)
  {
    assert [a, b][..1] == [a];
    BestOddsSingle(a);
    var b1, b2 := Best(a.outcome, 2.0, a.bookmaker), Best(b.outcome, 2.0, b.bookmaker);
    assert BestOdds([a, b]) == [b1, b2];
    SumReciprocalPair(b1, b2);
    assert Recip(2.0) == 0.5;
  }

  /** A three-way market at 2.5 / 3.6 / 4.5 from three bookmakers: sum of reciprocals 0.9, a 10 percent arbitrage. */
  lemma ThreeWayExample()
    ensures Evaluate([Quote("A", "1", 2.5), Quote("B", "X", 3.6), Quote("C", "2", 4.5)]) == Evaluation(true, 10.0)
  {
    var qs := [Quote("A", "1", 2.5), Quote("B", "X", 3.6), Quote("C", "2", 4.5)];
    var b1, b2, b3 := Best("1", 2.5, "A"), Best("X", 3.6, "B"), Best("2", 4.5, "C");
    assert qs[..2] == [qs[0], qs[1]];
    assert qs[..2][..1] == [qs[0]];
    BestOddsSingle(qs[0]);
    assert BestOdds(qs[..2]) == [b1, b2];
    assert BestOdds(qs) == [b1, b2, b3];
    assert [b1, b2, b3][..2] == [b1, b2];
    SumReciprocalPair(b1, b2);
    assert Recip(2.5) == 0.4;
    assert Recip(3.6) * 18.0 == 5.0;
    assert Recip(4.5) * 18.0 == 4.0;
    assert SumReciprocal([b1, b2, b3]) == 0.9;
  }

  /** Lines 72-88: every outcome of an allocated distribution pays back the same total / s. */
  lemma AllocationPaysEqually(bs: seq<Best>, total: real)
    ensures forall k :: 0 <= k < |bs| ==>
      Payout(Allocation(bs, total)[k]) == total / SumReciprocal(bs)
  {
    forall k | 0 <= k < |bs|
      ensures Payout(Allocation(bs, total)[k]) == total / SumReciprocal(bs)
    {
      StakePays(Allocation(bs, total)[k], bs[k], total, SumReciprocal(bs));
    }
  }

  /** The stake allocated to one kept entry pays back total / s. */
  lemma StakePays(d: Stake, b: Best, total: real, s: real)
    requires s > 0.0 && d == StakeFor(b, total, s)
    ensures Payout(d) == total / s
  {
    EqualReturn(b.odds, total, s);
  }

  /** The part of `total` proportional to `x` out of `s`, as a named term. */
  function Share(total: real, x: real, s: real): real
    requires s > 0.0
  {
    total * x / s
  }

  lemma SharesAdd(total: real, p: real, r: real, x: real, s: real)
    requires s > 0.0 && x == p + r
    ensures Share(total, p, s) + Share(total, r, s) == Share(total, x, s)
  {
    assert total * p + total * r == total * x;
  }

  lemma ShareOfWhole(total: real, s: real)
    requires s > 0.0
    ensures Share(total, s, s) == total
  {
  }

  lemma TotalStakedAt(d: seq<Stake>, k: nat)
    requires 0 < k <= |d|
    ensures TotalStaked(d[..k]) == TotalStaked(d[..k - 1]) + d[k - 1].stake
  {
    assert d[..k][..k - 1] == d[..k - 1];
  }

  lemma AllocationStakeAt(bs: seq<Best>, total: real, k: nat)
    requires 0 < k <= |bs|
    ensures TotalStaked(Allocation(bs, total)[..k])
      == TotalStaked(Allocation(bs, total)[..k - 1]) + Share(total, Recip(bs[k - 1].odds), SumReciprocal(bs))
  {
    var d := Allocation(bs, total);
    TotalStakedAt(d, k);
    assert d[k - 1] == StakeFor(bs[k - 1], total, SumReciprocal(bs));
  }

  lemma SumReciprocalAt(bs: seq<Best>, k: nat)
    requires 0 < k <= |bs|
    ensures SumReciprocal(bs[..k]) == SumReciprocal(bs[..k - 1]) + Recip(bs[k - 1].odds)
  {
    assert bs[..k][..k - 1] == bs[..k - 1];
  }

  /** The first `k` stakes add up to the share of the total that the first `k` reciprocals make of s. */
  lemma {:induction false} AllocationPrefixSum(bs: seq<Best>, total: real, k: nat)
    requires 0 < |bs| && k <= |bs|
    ensures TotalStaked(Allocation(bs, total)[..k]) == Share(total, SumReciprocal(bs[..k]), SumReciprocal(bs))
  {
    if k == 0 {
      assert Allocation(bs, total)[..0] == [] && bs[..0] == [];
    } else {
      AllocationPrefixSum(bs, total, k - 1);
      AllocationStakeAt(bs, total, k);
      SumReciprocalAt(bs, k);
      SharesAdd(total, SumReciprocal(bs[..k - 1]), Recip(bs[k - 1].odds), SumReciprocal(bs[..k]), SumReciprocal(bs));
    }
  }

  /** Lines 72-88: the unrounded stakes add up to the total stake. */
  lemma AllocationSumsToTotal(bs: seq<Best>, total: real)
    requires |bs| > 0
    ensures TotalStaked(Allocation(bs, total)) == total
  {
    AllocationPrefixSum(bs, total, |bs|);
    assert Allocation(bs, total)[..|bs|] == Allocation(bs, total);
    assert bs[..|bs|] == bs;
    ShareOfWhole(total, SumReciprocal(bs));
  }

  /**
   * Lines 72-88 with 59-69: the distribution of `calculate_stakes` has one entry
   * per distinct outcome, carrying that outcome's best odds and the bookmaker of
   * the first quote offering them.
   */
  lemma DistributionCoversOutcomes(qs: seq<Quote>, total: real)
    ensures var d := Allocation(BestOdds(qs), total);
      && (forall j, k :: 0 <= j < k < |d| ==> d[j].outcome != d[k].outcome)
      && (set k | 0 <= k < |d| :: d[k].outcome) == OutcomeSet(qs)
      && (forall k :: 0 <= k < |d| ==> KeptFrom(qs, Best(d[k].outcome, d[k].odds, d[k].bookmaker)))
  {
    var bs := BestOdds(qs);
    var d := Allocation(bs, total);
    BestOddsTable(qs);
    forall k | 0 <= k < |d| ensures KeptFrom(qs, Best(d[k].outcome, d[k].odds, d[k].bookmaker)) {
      assert Best(d[k].outcome, d[k].odds, d[k].bookmaker) == bs[k];
    }
    assert (set k | 0 <= k < |d| :: d[k].outcome) == TableOutcomes(bs);
  }

  /** A non-empty quote list has a non-empty best-odds table, so its distribution is balanced by the two lemmas above. */
  lemma BestOddsNonEmpty(qs: seq<Quote>)
    requires |qs| > 0
    ensures |BestOdds(qs)| > 0
  {
    BestOddsTable(qs);
    assert qs[0].outcome in OutcomeSet(qs);
  }

  lemma ProfitFromPercentage(total: real, s: real)
    ensures ExpectedProfit(total, (1.0 - s) * 100.0) == total * (1.0 - s)
  {
    assert ((1.0 - s) * 100.0) / 100.0 == 1.0 - s;
  }

  lemma MultiplyRight(x: real, y: real, s: real)
    requires x <= y && s > 0.0
    ensures x * s <= y * s
  {
  }

  lemma UnderstateArithmetic(total: real, s: real)
    requires total > 0.0 && 0.0 < s < 1.0
    ensures total * (1.0 - s) < total / s - total
  {
    var a := total * (1.0 - s);
    var t := a / s;
    assert a > 0.0;
    assert t * s == a;
    assert total / s - total == t by {
      assert (total / s) * s == total;
      assert (total / s - total) * s == total - total * s;
      assert total - total * s == a;
    }
    if t <= a {
      calc {
        a;
      ==
        t * s;
      <= { MultiplyRight(t, a, s); }
        a * s;
      <
        a;
      }
    }
  }

  /**
   * The profit reported for percentage `pct` is total * (1 - s), where s is the
   * sum of reciprocals, and that is strictly below the profit total / s - total
   * the stakes lock in.
   */
  ghost predicate UnderstatesLockedIn(total: real, pct: real, s: real)
  {
    && 0.0 < s < 1.0
    && ExpectedProfit(total, pct) == total * (1.0 - s)
    && total * (1.0 - s) < total / s - total
  }

  /** Line 92 on plain numbers: a percentage of (1 - s) * 100 understates the locked-in profit. */
  lemma ProfitBelowLockedIn(total: real, s: real, pct: real)
    requires total > 0.0 && 0.0 < s < 1.0 && pct == (1.0 - s) * 100.0
    ensures UnderstatesLockedIn(total, pct, s)
  {
    ProfitFromPercentage(total, s);
    UnderstateArithmetic(total, s);
  }

  /** Lines 34-38: reported arbitrage means the sum of reciprocals lies strictly between 0 and 1. */
  lemma FoundBounds(qs: seq<Quote>)
    requires Evaluate(qs).found
    ensures 0.0 < SumReciprocal(BestOdds(qs)) < 1.0
    ensures Evaluate(qs).percentage == (1.0 - SumReciprocal(BestOdds(qs))) * 100.0
  {
    BestOddsNonEmpty(qs);
  }

  /** Lines 16-38: arbitrage is reported exactly when there are two quotes or more and the sum of reciprocals is below 1. */
  lemma FoundExactly(qs: seq<Quote>)
    ensures Evaluate(qs).found <==> |qs| >= 2 && SumReciprocal(BestOdds(qs)) < 1.0
  {
    if |qs| >= 2 {
      var s := SumReciprocal(BestOdds(qs));
      assert Evaluate(qs).found == ((1.0 - s) * 100.0 > 0.0);
    }
  }

  /**
   * Line 92: when the percentage comes from the evaluator, expected_profit is
   * total * (1 - s). The profit the distribution locks in is total / s - total,
   * which is strictly larger whenever arbitrage exists: the reported figure
   * understates it.
   */
  lemma ExpectedProfitUnderstatesLockedIn(qs: seq<Quote>, total: real)
    requires Evaluate(qs).found && total > 0.0
    ensures UnderstatesLockedIn(total, Evaluate(qs).percentage, SumReciprocal(BestOdds(qs)))
  {
    FoundBounds(qs);
    ProfitBelowLockedIn(total, SumReciprocal(BestOdds(qs)), Evaluate(qs).percentage);
  }
}
