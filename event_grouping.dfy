/**
 * The two grouping passes of `find_arbitrage_opportunities`
 * (backend/app/services/arbitrage_calculator.py, lines 113-166): scraped events
 * are grouped into matches by "home|away|start", every odds entry becoming a
 * quote whose outcome is encoded as "market_type:outcome"; then each match's
 * quotes are decoded again and grouped into markets by "market_type[:params]".
 */
module EventGrouping {
  import opened Wrappers
  import opened Text
  import opened ArbitrageCalculator
  import opened Grouping

  /** One entry of a market's `odds` list. */
  datatype OddsEntry = OddsEntry(outcome: string, value: Odds)

  /** One entry of an event's `markets` list; `params` is the optional `market_params`. */
  datatype Market = Market(marketType: string, params: Option<string>, odds: seq<OddsEntry>)

  /**
   * A scraped event after the scraping cycle has tagged it with its bookmaker.
   * `league` is None when the event carries no league; `startTime` is the
   * ISO form of the start time.
   */
  datatype Event = Event(
    homeTeam: string, awayTeam: string, league: Option<string>, startTime: string,
    bookmakerId: int, bookmakerName: string, markets: seq<Market>)

  /** One entry of a match's `odds` list, before decoding. */
  datatype TaggedQuote = TaggedQuote(bookmaker: string, encoded: string, odds: Odds, params: Option<string>)

  /** The fields a match takes from its first event. */
  datatype MatchHeader = MatchHeader(homeTeam: string, awayTeam: string, league: string, startTime: string)

  type MatchGroup = Group<string, MatchHeader, TaggedQuote>
  type MarketGroup = Group<string, (), Quote>

  /** Line 115: the match key. */
  function MatchKey(e: Event): string
  {
    e.homeTeam + "|" + e.awayTeam + "|" + e.startTime
  }

  /** Line 135: the outcome of a quote, prefixed by its market type. */
  function Encode(marketType: string, outcome: string): string
  {
    marketType + ":" + outcome
  }

  /** Lines 117-124: the header of a new match; a missing league becomes "". */
  function HeaderOf(e: Event): MatchHeader
  {
    MatchHeader(e.homeTeam, e.awayTeam, if e.league.Some? then e.league.value else "", e.startTime)
  }

  /** Lines 127-138: the quotes one market of one event contributes. */
  function MarketQuotes(bookmaker: string, m: Market): (r: seq<TaggedQuote>)
    ensures |r| == |m.odds|
    ensures forall k :: 0 <= k < |r| ==>
      r[k] == TaggedQuote(bookmaker, Encode(m.marketType, m.odds[k].outcome), m.odds[k].value, m.params)
  {
    seq(|m.odds|, k requires 0 <= k < |m.odds| =>
      TaggedQuote(bookmaker, Encode(m.marketType, m.odds[k].outcome), m.odds[k].value, m.params))
  }

  /** Lines 127-138: the quotes of a list of markets, market by market. */
  function QuotesOf(bookmaker: string, ms: seq<Market>): seq<TaggedQuote>
  {
    if |ms| == 0 then [] else QuotesOf(bookmaker, ms[..|ms| - 1]) + MarketQuotes(bookmaker, ms[|ms| - 1])
  }

  function EventQuotes(e: Event): seq<TaggedQuote>
  {
    QuotesOf(e.bookmakerName, e.markets)
  }

  /** What one event contributes to the match grouping. */
  function MatchEntry(e: Event): Entry<string, MatchHeader, TaggedQuote>
  {
    Add(MatchKey(e), HeaderOf(e), EventQuotes(e))
  }

  function MatchEntries(es: seq<Event>): (r: seq<Entry<string, MatchHeader, TaggedQuote>>)
    ensures |r| == |es| && forall k :: 0 <= k < |es| ==> r[k] == MatchEntry(es[k])
  {
    seq(|es|, k requires 0 <= k < |es| => MatchEntry(es[k]))
  }

  /** The `matches` dictionary. */
  function Matches(es: seq<Event>): seq<MatchGroup>
  {
    GroupAll(MatchEntries(es))
  }

  /** Python truthiness of an optional string: present and non-empty. */
  predicate Truthy(p: Option<string>)
  {
    p.Some? && p.value != ""
  }

  /** Lines 155-157: a truthy `market_params` extends the market key. */
  function MarketKey(marketType: string, params: Option<string>): string
  {
    if Truthy(params) then marketType + ":" + params.value else marketType
  }

  /**
   * Lines 145-166: a quote whose outcome does not split into exactly two
   * pieces is skipped; otherwise it is filed under its market key.
   */
  function MarketEntry(t: TaggedQuote): Entry<string, (), Quote>
  {
    var parts := Split(t.encoded, ':');
    if |parts| != 2 then Skip
    else Add(MarketKey(parts[0], t.params), (), [Quote(t.bookmaker, parts[1], t.odds)])
  }

  function MarketEntries(ts: seq<TaggedQuote>): (r: seq<Entry<string, (), Quote>>)
    ensures |r| == |ts| && forall k :: 0 <= k < |ts| ==> r[k] == MarketEntry(ts[k])
  {
    seq(|ts|, k requires 0 <= k < |ts| => MarketEntry(ts[k]))
  }

  /** The `markets` dictionary of one match. */
  function Markets(ts: seq<TaggedQuote>): seq<MarketGroup>
  {
    GroupAll(MarketEntries(ts))
  }

  /** Lines 127-138: appends the quotes of every market of `e` to `items`. */
  method AppendEventQuotes(items: seq<TaggedQuote>, e: Event) returns (r: seq<TaggedQuote>)
    ensures r == items + EventQuotes(e)
  {
    r := items;
    for i := 0 to |e.markets|
      invariant r == items + QuotesOf(e.bookmakerName, e.markets[..i])
    {
      var m := e.markets[i];
      ghost var before := r;
      ghost var mq := MarketQuotes(e.bookmakerName, m);
      for k := 0 to |m.odds|
        invariant r == before + mq[..k]
      {
        var odd := m.odds[k];
        r := r + [TaggedQuote(e.bookmakerName, Encode(m.marketType, odd.outcome), odd.value, m.params)];
        assert mq[..k + 1] == mq[..k] + [mq[k]];
      }
      assert mq[..|m.odds|] == mq;
      assert e.markets[..i + 1][..i] == e.markets[..i];
      assert QuotesOf(e.bookmakerName, e.markets[..i + 1]) == QuotesOf(e.bookmakerName, e.markets[..i]) + mq;
    }
    assert e.markets[..|e.markets|] == e.markets;
  }

  /** Lines 113-138: the match grouping loop. */
  method GroupByMatch(es: seq<Event>) returns (ms: seq<MatchGroup>)
    ensures ms == Matches(es)
  {
    ghost var entries := MatchEntries(es);
    ms := [];
    for n := 0 to |es|
      invariant ms == GroupAll(entries[..n])
    {
      var e := es[n];
      ghost var prev := ms;
      var key := MatchKey(e);
      var i := IndexOfKey(ms, key);
      if i == -1 {
        ms := ms + [Group(key, HeaderOf(e), [])];
        i := |ms| - 1;
      }
      var items := AppendEventQuotes(ms[i].items, e);
      ms := ms[i := ms[i].(items := items)];
      if IndexOfKey(prev, key) == -1 {
        assert [] + EventQuotes(e) == EventQuotes(e);
        assert ms == prev + [Group(key, HeaderOf(e), EventQuotes(e))];
      }
      assert ms == Place(prev, entries[n]);
      assert entries[..n + 1][..n] == entries[..n];
    }
    assert entries[..|es|] == entries;
  }

  /** Lines 143-166: the market grouping loop of one match. */
  method GroupByMarket(ts: seq<TaggedQuote>) returns (mk: seq<MarketGroup>)
    ensures mk == Markets(ts)
  {
    ghost var entries := MarketEntries(ts);
    mk := [];
    for n := 0 to |ts|
      invariant mk == GroupAll(entries[..n])
    {
      var t := ts[n];
      ghost var prev := mk;
      var parts := Split(t.encoded, ':');
      if |parts| == 2 {
        var key := MarketKey(parts[0], t.params);
        var q := Quote(t.bookmaker, parts[1], t.odds);
        var i := IndexOfKey(mk, key);
        if i == -1 {
          mk := mk + [Group(key, (), [])];
          i := |mk| - 1;
        }
        mk := mk[i := mk[i].(items := mk[i].items + [q])];
        if IndexOfKey(prev, key) == -1 {
          assert [] + [q] == [q];
          assert mk == prev + [Group(key, (), [q])];
        }
      }
      assert mk == Place(prev, entries[n]);
      assert entries[..n + 1][..n] == entries[..n];
    }
    assert entries[..|ts|] == entries;
  }

  /** The match key splits back into its three fields when none of them holds '|'. */
  lemma MatchKeySplits(e: Event)
    requires '|' !in e.homeTeam && '|' !in e.awayTeam && '|' !in e.startTime
    ensures Split(MatchKey(e), '|') == [e.homeTeam, e.awayTeam, e.startTime]
  {
    var parts := [e.homeTeam, e.awayTeam, e.startTime];
    SplitJoin(parts, '|');
    assert Join(parts, '|') == e.homeTeam + "|" + Join(parts[1..], '|');
    assert Join(parts[1..], '|') == e.awayTeam + "|" + Join(parts[2..], '|');
    assert Join(parts[2..], '|') == e.startTime;
    assert MatchKey(e) == e.homeTeam + "|" + (e.awayTeam + "|" + e.startTime);
  }

  /**
   * Line 115: two events fall into the same match exactly when they agree on
   * home team, away team and start time, provided no team name holds '|'
   * (an ISO time never does).
   */
  lemma MatchKeyInjective(a: Event, b: Event)
    requires '|' !in a.homeTeam && '|' !in a.awayTeam && '|' !in a.startTime
    requires '|' !in b.homeTeam && '|' !in b.awayTeam && '|' !in b.startTime
    ensures MatchKey(a) == MatchKey(b) <==>
      a.homeTeam == b.homeTeam && a.awayTeam == b.awayTeam && a.startTime == b.startTime
  {
    MatchKeySplits(a);
    MatchKeySplits(b);
  }

  /** A '|' inside a team name lets two different fixtures share one match key. */
  lemma MatchKeyCollision(t: string, bookmakerId: int, bookmakerName: string)
    ensures var a := Event("A|B", "C", None, t, bookmakerId, bookmakerName, []);
      var b := Event("A", "B|C", None, t, bookmakerId, bookmakerName, []);
      MatchKey(a) == MatchKey(b) && a.homeTeam != b.homeTeam
  {
    var a := Event("A|B", "C", None, t, bookmakerId, bookmakerName, []);
    var b := Event("A", "B|C", None, t, bookmakerId, bookmakerName, []);
    assert MatchKey(a) == "A|B|C|" + t;
    assert MatchKey(b) == "A|B|C|" + t;
  }

  lemma CountOfEncoding(marketType: string, outcome: string)
    ensures Count(Encode(marketType, outcome), ':') == Count(marketType, ':') + 1 + Count(outcome, ':')
  {
    CountAppend(marketType + ":", outcome, ':');
    CountAppend(marketType, ":", ':');
    assert Count(":", ':') == 1 + Count(":"[1..], ':');
  }

  /**
   * Lines 135 and 145-166: a quote survives the decoding exactly when neither its
   * market type nor its outcome holds ':', and it then comes back with its
   * bookmaker, outcome and odds under the market key of its type and params.
   */
  lemma DecodeEncoded(bookmaker: string, marketType: string, outcome: string, v: Odds, params: Option<string>)
    ensures MarketEntry(TaggedQuote(bookmaker, Encode(marketType, outcome), v, params))
      == if ':' !in marketType && ':' !in outcome
         then Add(MarketKey(marketType, params), (), [Quote(bookmaker, outcome, v)])
         else Skip
  {
    CountOfEncoding(marketType, outcome);
    CountZero(marketType, ':');
    CountZero(outcome, ':');
    if ':' !in marketType && ':' !in outcome {
      SplitPair(marketType, outcome, ':');
    }
  }

  /** The market key of a proper market type: the params as Python reads them, "" when falsy. */
  function ParamsText(p: Option<string>): string
  {
    if Truthy(p) then p.value else ""
  }

  /**
   * Lines 155-157: two quotes share a market exactly when they agree on market
   * type and on their params (a missing and an empty `market_params` being the
   * same), provided the types hold no ':'.
   */
  lemma MarketKeyInjective(t1: string, p1: Option<string>, t2: string, p2: Option<string>)
    requires ':' !in t1 && ':' !in t2
    ensures MarketKey(t1, p1) == MarketKey(t2, p2) <==> t1 == t2 && ParamsText(p1) == ParamsText(p2)
  {
    var k := MarketKey(t1, p1);
    if k == MarketKey(t2, p2) {
      KeyPieces(t1, p1);
      KeyPieces(t2, p2);
      if Truthy(p1) && Truthy(p2) {
        assert k == t1 + [':'] + p1.value && k == t2 + [':'] + p2.value;
        assert p1.value == k[|t1| + 1..];
      }
    }
  }

  /** The first piece of a market key is its type, and it has a second piece exactly when the params are truthy. */
  lemma KeyPieces(t: string, p: Option<string>)
    requires ':' !in t
    ensures Split(MarketKey(t, p), ':')[0] == t
    ensures |Split(MarketKey(t, p), ':')| > 1 <==> Truthy(p)
  {
    if Truthy(p) {
      assert MarketKey(t, p) == t + [':'] + p.value;
      SplitAfterPiece(t, p.value, ':');
    } else {
      SplitWithoutSeparator(t, ':');
    }
  }

  /**
   * Lines 113-138: matches come in order of first appearance, each with the
   * header of its first event and the quotes of all its events in order, and
   * their keys are distinct.
   */
  lemma MatchGrouping(es: seq<Event>)
    ensures GroupedFrom(MatchEntries(es), Matches(es))
    ensures forall i, j :: 0 <= i < j < |Matches(es)| ==> Matches(es)[i].key != Matches(es)[j].key
  {
    GroupAllIsGrouping(MatchEntries(es));
    GroupKeysDistinct(MatchEntries(es));
  }

  /** Lines 143-166: the same for the markets of one match; skipped quotes land nowhere. */
  lemma MarketGrouping(ts: seq<TaggedQuote>)
    ensures GroupedFrom(MarketEntries(ts), Markets(ts))
    ensures forall i, j :: 0 <= i < j < |Markets(ts)| ==> Markets(ts)[i].key != Markets(ts)[j].key
  {
    GroupAllIsGrouping(MarketEntries(ts));
    GroupKeysDistinct(MarketEntries(ts));
  }
}
