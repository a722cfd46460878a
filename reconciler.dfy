/**
 * Saving a batch of opportunities (backend/app/services/scraper_manager.py,
 * lines 113-149): each opportunity refreshes the first active stored record
 * with the same home team, away team and market label, or else is inserted as
 * a new active record. The session does not flush before its queries, so the
 * lookups only see the records that were stored before the batch.
 */
module Reconciler {
  import opened ArbitrageCalculator
  import opened OpportunityFinder

  /** A clock reading, as the caller supplies it. */
  type Instant = int

  /** One `ArbitrageOpportunity` row (backend/app/models/arbitrage.py, lines 8-31, with the id of models/base.py). */
  datatype StoredOpportunity = StoredOpportunity(
    id: nat, homeTeam: string, awayTeam: string, league: string, startTime: string,
    marketType: string, bookmakers: set<string>, odds: map<string, map<string, Odds>>,
    arbitragePercentage: real, isActive: bool, stakeDistribution: seq<Stake>,
    totalStake: real, expectedProfit: real, detectedAt: Instant, lastVerifiedAt: Instant)

  /** Lines 117-122: the filter of the existence check. */
  predicate SameOpportunity(r: StoredOpportunity, o: Opportunity)
  {
    r.homeTeam == o.homeTeam && r.awayTeam == o.awayTeam && r.marketType == o.marketType && r.isActive
  }

  /** `.first()` of that query: the position of the first matching record, or -1. */
  function FirstMatch(rs: seq<StoredOpportunity>, o: Opportunity): (i: int)
    ensures -1 <= i < |rs|
  {
    if |rs| == 0 then -1
    else if SameOpportunity(rs[0], o) then 0
    else
      var j := FirstMatch(rs[1..], o);
      if j == -1 then -1 else j + 1
  }

  /** FirstMatch finds the first active record with the opportunity's teams and market, and -1 when there is none. */
  lemma {:induction false} FirstMatchIsFirst(rs: seq<StoredOpportunity>, o: Opportunity)
    ensures var i := FirstMatch(rs, o);
      && (i == -1 <==> forall j :: 0 <= j < |rs| ==> !SameOpportunity(rs[j], o))
      && (0 <= i ==> SameOpportunity(rs[i], o) && forall j :: 0 <= j < i ==> !SameOpportunity(rs[j], o))
  {
    if |rs| > 0 && !SameOpportunity(rs[0], o) {
      FirstMatchIsFirst(rs[1..], o);
      assert forall j :: 0 < j < |rs| ==> rs[j] == rs[1..][j - 1];
    }
  }

  /** Lines 124-130: the five fields an existing record takes from the opportunity. */
  function Refreshed(r: StoredOpportunity, o: Opportunity, now: Instant): StoredOpportunity
  {
    r.(odds := o.odds, arbitragePercentage := o.arbitragePercentage,
       stakeDistribution := o.stakeDistribution, expectedProfit := o.expectedProfit,
       lastVerifiedAt := now)
  }

  /** Lines 131-147: the new record; both timestamps default to the time of the insert. */
  function Inserted(o: Opportunity, id: nat, now: Instant): StoredOpportunity
  {
    StoredOpportunity(id, o.homeTeam, o.awayTeam, o.league, o.startTime, o.marketType,
      o.bookmakers, o.odds, o.arbitragePercentage, true, o.stakeDistribution,
      o.totalStake, o.expectedProfit, now, now)
  }

  /** The number of opportunities of the batch that find no stored record. */
  function Misses(before: seq<StoredOpportunity>, opps: seq<Opportunity>): nat
  {
    if |opps| == 0 then 0
    else Misses(before, opps[..|opps| - 1]) + (if FirstMatch(before, opps[|opps| - 1]) == -1 then 1 else 0)
  }

  /**
   * The records after saving `opps` on top of `before`, new records numbered
   * from `nextId` in insertion order.
   */
  function Saved(before: seq<StoredOpportunity>, opps: seq<Opportunity>, nextId: nat, now: Instant): (rs: seq<StoredOpportunity>)
    ensures |rs| == |before| + Misses(before, opps)
  {
    if |opps| == 0 then before
    else
      var p := opps[..|opps| - 1];
      SaveOne(before, Saved(before, p, nextId, now), opps[|opps| - 1], nextId + Misses(before, p), now)
  }

  /**
   * One opportunity on top of the records `rs`: the record found among the
   * flushed records `before` is refreshed, or a record numbered `id` is appended.
   */
  function SaveOne(before: seq<StoredOpportunity>, rs: seq<StoredOpportunity>, o: Opportunity, id: nat, now: Instant): (r: seq<StoredOpportunity>)
    requires |before| <= |rs|
    ensures |r| == |rs| + (if FirstMatch(before, o) == -1 then 1 else 0)
  {
    var i := FirstMatch(before, o);
    if i >= 0 then rs[i := Refreshed(rs[i], o, now)]
    else rs + [Inserted(o, id, now)]
  }

  /** Record ids are below `n`. */
  ghost predicate IdsBelow(rs: seq<StoredOpportunity>, n: nat)
  {
    forall i :: 0 <= i < |rs| ==> rs[i].id < n
  }

  /** Record ids are pairwise distinct. */
  ghost predicate IdsUnique(rs: seq<StoredOpportunity>)
  {
    forall i, j :: 0 <= i < j < |rs| ==> rs[i].id != rs[j].id
  }

  /** The fields a refresh never changes: the identity of the row and its match details. */
  ghost predicate SameIdentity(a: StoredOpportunity, b: StoredOpportunity)
  {
    && a.id == b.id && a.homeTeam == b.homeTeam && a.awayTeam == b.awayTeam
    && a.league == b.league && a.startTime == b.startTime && a.marketType == b.marketType
    && a.bookmakers == b.bookmakers && a.isActive == b.isActive
    && a.totalStake == b.totalStake && a.detectedAt == b.detectedAt
  }

  lemma SavedStep(before: seq<StoredOpportunity>, opps: seq<Opportunity>, k: nat, nextId: nat, now: Instant)
    requires k < |opps|
    ensures Saved(before, opps[..k + 1], nextId, now)
      == SaveOne(before, Saved(before, opps[..k], nextId, now), opps[k], nextId + Misses(before, opps[..k]), now)
    ensures Misses(before, opps[..k + 1]) == Misses(before, opps[..k]) + (if FirstMatch(before, opps[k]) == -1 then 1 else 0)
  {
    assert opps[..k + 1][..k] == opps[..k];
  }

  /**
   * Lines 113-147: saving keeps ids unique. Stored records keep their ids and
   * new ones are numbered consecutively from `nextId`.
   */
  lemma {:induction false} SavedKeepsIdsUnique(before: seq<StoredOpportunity>, opps: seq<Opportunity>, nextId: nat, now: Instant)
    requires IdsBelow(before, nextId) && IdsUnique(before)
    ensures var rs := Saved(before, opps, nextId, now);
      IdsBelow(rs, nextId + Misses(before, opps)) && IdsUnique(rs)
  {
    if |opps| > 0 {
      var p := opps[..|opps| - 1];
      SavedKeepsIdsUnique(before, p, nextId, now);
    }
  }

  /**
   * Lines 124-130: no stored record is deleted, deactivated or re-keyed: a
   * refresh leaves the id, the match details, the bookmakers, the total stake,
   * the active flag and the detection time as they were.
   */
  lemma {:induction false} SavedKeepsIdentity(before: seq<StoredOpportunity>, opps: seq<Opportunity>, nextId: nat, now: Instant)
    ensures var rs := Saved(before, opps, nextId, now);
      forall i :: 0 <= i < |before| ==> SameIdentity(rs[i], before[i])
  {
    if |opps| > 0 {
      SavedKeepsIdentity(before, opps[..|opps| - 1], nextId, now);
    }
  }

  /** A stored record that no opportunity of the batch matches comes out unchanged. */
  lemma {:induction false} SavedLeavesUnmatched(before: seq<StoredOpportunity>, opps: seq<Opportunity>, nextId: nat, now: Instant, i: int)
    requires 0 <= i < |before|
    requires forall k :: 0 <= k < |opps| ==> FirstMatch(before, opps[k]) != i
    ensures Saved(before, opps, nextId, now)[i] == before[i]
  {
    if |opps| > 0 {
      var p := opps[..|opps| - 1];
      assert forall k :: 0 <= k < |p| ==> p[k] == opps[k];
      SavedLeavesUnmatched(before, p, nextId, now, i);
    }
  }

  /**
   * Lines 124-130: a stored record matched several times in one batch ends up
   * with the fields of the last opportunity that matched it.
   */
  lemma {:induction false} SavedLastMatchWins(before: seq<StoredOpportunity>, opps: seq<Opportunity>, nextId: nat, now: Instant, k: int)
    requires 0 <= k < |opps| && FirstMatch(before, opps[k]) >= 0
    requires forall j :: k < j < |opps| ==> FirstMatch(before, opps[j]) != FirstMatch(before, opps[k])
    ensures var i := FirstMatch(before, opps[k]);
      Saved(before, opps, nextId, now)[i] == Refreshed(before[i], opps[k], now)
  {
    var i := FirstMatch(before, opps[k]);
    var p := opps[..|opps| - 1];
    if k == |opps| - 1 {
      var rs := Saved(before, p, nextId, now);
      SavedKeepsIdentity(before, p, nextId, now);
      assert SameIdentity(rs[i], before[i]);
    } else {
      assert p[k] == opps[k];
      forall j | k < j < |p| ensures FirstMatch(before, p[j]) != i {
        assert p[j] == opps[j];
      }
      SavedLastMatchWins(before, p, nextId, now, k);
    }
  }

  /**
   * Lines 117-147: the inserts of one batch are invisible to its own lookups,
   * so two opportunities that both find no stored record are both inserted,
   * even when they describe the same match and market.
   */
  lemma DuplicatesBothInserted(before: seq<StoredOpportunity>, o1: Opportunity, o2: Opportunity, nextId: nat, now: Instant)
    requires FirstMatch(before, o1) == -1 && FirstMatch(before, o2) == -1
    ensures Saved(before, [o1, o2], nextId, now) == before + [Inserted(o1, nextId, now), Inserted(o2, nextId + 1, now)]
  {
    var one := [o1, o2][..1];
    assert one == [o1];
    assert one[..0] == [];
    assert Saved(before, one, nextId, now) == before + [Inserted(o1, nextId, now)];
    assert Misses(before, one) == 1;
  }

  /**
   * The rows a batch adds, defined front to back: each opportunity that finds
   * no stored record gives one new active row, numbered from `id` upwards.
   */
  function NewRecords(before: seq<StoredOpportunity>, opps: seq<Opportunity>, id: nat, now: Instant): seq<StoredOpportunity>
    decreases |opps|
  {
    if |opps| == 0 then []
    else if FirstMatch(before, opps[0]) == -1 then [Inserted(opps[0], id, now)] + NewRecords(before, opps[1..], id + 1, now)
    else NewRecords(before, opps[1..], id, now)
  }

  lemma {:induction false} MissesFront(before: seq<StoredOpportunity>, opps: seq<Opportunity>)
    requires |opps| > 0
    ensures Misses(before, opps) == (if FirstMatch(before, opps[0]) == -1 then 1 else 0) + Misses(before, opps[1..])
    decreases |opps|
  {
    if |opps| > 1 {
      var p := opps[..|opps| - 1];
      MissesFront(before, p);
      assert p[1..] == opps[1..][..|opps[1..]| - 1];
    } else {
      assert opps[..0] == [] && opps[1..] == [];
    }
  }

  lemma {:induction false} NewRecordsAppend(before: seq<StoredOpportunity>, p: seq<Opportunity>, o: Opportunity, id: nat, now: Instant)
    ensures NewRecords(before, p + [o], id, now)
      == NewRecords(before, p, id, now) + (if FirstMatch(before, o) == -1 then [Inserted(o, id + Misses(before, p), now)] else [])
    decreases |p|
  {
    if |p| == 0 {
      assert (p + [o])[1..] == [];
      assert p + [o] == [o];
    } else {
      assert (p + [o])[0] == p[0];
      assert (p + [o])[1..] == p[1..] + [o];
      MissesFront(before, p);
      var next := if FirstMatch(before, p[0]) == -1 then id + 1 else id;
      NewRecordsAppend(before, p[1..], o, next, now);
    }
  }

  /**
   * Lines 131-147: the records after the batch are the stored ones followed by
   * one new row per unmatched opportunity, in batch order, with consecutive ids.
   */
  lemma {:induction false} SavedAppendsNewRecords(before: seq<StoredOpportunity>, opps: seq<Opportunity>, nextId: nat, now: Instant)
    ensures var rs := Saved(before, opps, nextId, now);
      |before| <= |rs| && rs[|before|..] == NewRecords(before, opps, nextId, now)
  {
    if |opps| == 0 {
    } else {
      var p, o := opps[..|opps| - 1], opps[|opps| - 1];
      SavedAppendsNewRecords(before, p, nextId, now);
      NewRecordsAppend(before, p, o, nextId, now);
      assert p + [o] == opps;
      var rs := Saved(before, p, nextId, now);
      var i := FirstMatch(before, o);
      if i >= 0 {
        assert rs[i := Refreshed(rs[i], o, now)][|before|..] == rs[|before|..];
      } else {
        assert (rs + [Inserted(o, nextId + Misses(before, p), now)])[|before|..] == rs[|before|..] + [Inserted(o, nextId + Misses(before, p), now)];
      }
    }
  }

  /** The `ArbitrageOpportunity` table. */
  class OpportunityStore {
    var records: seq<StoredOpportunity>
    var nextId: nat

    /** Ids are unique and below the next one to be assigned. */
    ghost predicate Valid()
      reads this
    {
      IdsBelow(records, nextId) && IdsUnique(records)
    }

    constructor ()
      ensures records == [] && nextId == 1 && Valid()
    {
      records := [];
      nextId := 1;
    }

    /** Lines 113-149: update or insert every opportunity of the batch. */
    method SaveOpportunities(opps: seq<Opportunity>, now: Instant)
      requires Valid()
      modifies this
      ensures Valid()
      ensures records == Saved(old(records), opps, old(nextId), now)
      ensures nextId == old(nextId) + Misses(old(records), opps)
    {
      var flushed := records;
      var first := nextId;
      var pending := records;
      var id := nextId;
      for k := 0 to |opps|
        invariant pending == Saved(flushed, opps[..k], first, now)
        invariant id == first + Misses(flushed, opps[..k])
      {
        SavedStep(flushed, opps, k, first, now);
        var o := opps[k];
        var i := FirstMatch(flushed, o);
        if i >= 0 {
          pending := pending[i := Refreshed(pending[i], o, now)];
        } else {
          pending := pending + [Inserted(o, id, now)];
          id := id + 1;
        }
      }
      assert opps[..|opps|] == opps;
      SavedKeepsIdsUnique(flushed, opps, first, now);
      records, nextId := pending, id;
    }
  }
}
