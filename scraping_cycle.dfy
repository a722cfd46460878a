/**
 * One scraping cycle, `trigger_scraping_job` of
 * backend/app/services/scraper_manager.py (lines 40-161): select the active
 * bookmakers, run each one's scraper, tag and gather the events, count what
 * happened, search the gathered events for arbitrage and save what is found.
 * The scrapers themselves are an input: for every bookmaker row, what its
 * scraper does when it is run in this cycle.
 */
module ScrapingCycle {
  import opened Wrappers
  import opened EventGrouping
  import opened OpportunityFinder
  import opened Reconciler
  import opened Ranking

  /** Lines 16-22: the bookmakers a scraper module is registered for. */
  const ScraperNames: set<string> := {"Bet9ja", "1xBet", "BetKing", "SportyBet", "Betano"}

  /** A `Bookmaker` row (backend/app/models/bookmaker.py, lines 22-27), with the id of models/base.py. */
  datatype Bookmaker = Bookmaker(id: nat, name: string, isActive: bool, lastScraped: Option<Instant>)

  /** An event as a scraper returns it, before it is tagged with its bookmaker. */
  datatype ScrapedEvent = ScrapedEvent(
    homeTeam: string, awayTeam: string, league: Option<string>, startTime: string, markets: seq<Market>)

  /**
   * What running a bookmaker's scraper does: no module can be imported
   * (lines 33-38), the scraper raises `message` after `appended` events were
   * already tagged and gathered, or it returns `events`.
   */
  datatype ScraperRun =
    | Unavailable
    | Raised(appended: seq<ScrapedEvent>, message: string)
    | Returned(events: seq<ScrapedEvent>)

  /** The `results` dictionary of lines 46-53. */
  datatype CycleResult = CycleResult(
    success: bool, timestamp: Instant, bookmakersProcessed: nat, eventsScraped: nat,
    opportunitiesFound: nat, errors: seq<string>)

  /** The counters and lists the bookmaker loop accumulates. */
  datatype Tally = Tally(processed: nat, events: seq<Event>, scraped: nat, errors: seq<string>)

  /** Lines 56-58: active, and the id asked for when a non-zero id is given. */
  predicate Selected(b: Bookmaker, filter: Option<int>)
  {
    b.isActive && (filter.None? || filter.value == 0 || b.id == filter.value)
  }

  /** The positions of the selected rows, in table order. */
  function SelectedIndices(rows: seq<Bookmaker>, filter: Option<int>): (r: seq<nat>)
    ensures forall k :: 0 <= k < |r| ==> r[k] < |rows|
  {
    if |rows| == 0 then []
    else SelectedIndices(rows[..|rows| - 1], filter) + (if Selected(rows[|rows| - 1], filter) then [|rows| - 1] else [])
  }

  /** Every entry of `sel` is a position of a table of `n` rows. */
  predicate Indices(sel: seq<nat>, n: nat)
  {
    forall k :: 0 <= k < |sel| ==> sel[k] < n
  }

  /** Lines 24-31 and 73-77: a bookmaker without a registered scraper never runs one. */
  function Effective(b: Bookmaker, run: ScraperRun): ScraperRun
  {
    if b.name in ScraperNames then run else Unavailable
  }

  /** The bookmaker's loop body runs to its end (lines 80-99). */
  predicate Completes(b: Bookmaker, run: ScraperRun)
  {
    Effective(b, run).Returned?
  }

  /** Lines 86-87: the bookmaker's id and name are added to the event. */
  function Tag(e: ScrapedEvent, b: Bookmaker): Event
  {
    Event(e.homeTeam, e.awayTeam, e.league, e.startTime, b.id, b.name, e.markets)
  }

  function TagAll(evs: seq<ScrapedEvent>, b: Bookmaker): seq<Event>
  {
    seq(|evs|, k requires 0 <= k < |evs| => Tag(evs[k], b))
  }

  /** Lines 76 and 102: the error a bookmaker's turn reports when its loop body does not run to its end. */
  function ErrorMessage(b: Bookmaker, run: ScraperRun): string
  {
    match Effective(b, run)
    case Raised(_, message) => "Error scraping " + b.name + ": " + message
    case _ => "No scraper available for " + b.name
  }

  /** Lines 71-104: one bookmaker's turn of the loop. */
  function Attempt(t: Tally, b: Bookmaker, run: ScraperRun): Tally
  {
    match Effective(b, run)
    case Unavailable =>
      Tally(t.processed + 1, t.events, t.scraped, t.errors + [ErrorMessage(b, run)])
    case Raised(appended, _) =>
      Tally(t.processed + 1, t.events + TagAll(appended, b), t.scraped, t.errors + [ErrorMessage(b, run)])
    case Returned(evs) =>
      Tally(t.processed + 1, t.events + TagAll(evs, b), t.scraped + |evs|, t.errors)
  }

  /** Lines 67-104: the loop over the bookmakers at positions `sel`, in that order. */
  function Scrape(rows: seq<Bookmaker>, sel: seq<nat>, runs: seq<ScraperRun>): Tally
    requires |runs| == |rows| && Indices(sel, |rows|)
  {
    if |sel| == 0 then Tally(0, [], 0, [])
    else
      var i := sel[|sel| - 1];
      Attempt(Scrape(rows, sel[..|sel| - 1], runs), rows[i], runs[i])
  }

  /** The number of bookmakers at positions `sel` whose loop body runs to its end. */
  function Completions(rows: seq<Bookmaker>, sel: seq<nat>, runs: seq<ScraperRun>): nat
    requires |runs| == |rows| && Indices(sel, |rows|)
  {
    if |sel| == 0 then 0
    else
      var i := sel[|sel| - 1];
      Completions(rows, sel[..|sel| - 1], runs) + (if Completes(rows[i], runs[i]) then 1 else 0)
  }

  /** The rows with `lastScraped` set for the completed bookmakers among positions `done` (lines 93-95). */
  function Mark(rows: seq<Bookmaker>, done: seq<nat>, runs: seq<ScraperRun>, now: Instant): (r: seq<Bookmaker>)
    requires |runs| == |rows|
    ensures |r| == |rows|
  {
    seq(|rows|, i requires 0 <= i < |rows| =>
      if i in done && Completes(rows[i], runs[i]) then rows[i].(lastScraped := Some(now)) else rows[i])
  }

  /** The bookmaker table after the cycle. */
  function AfterScraping(rows: seq<Bookmaker>, filter: Option<int>, runs: seq<ScraperRun>, now: Instant): seq<Bookmaker>
    requires |runs| == |rows|
  {
    Mark(rows, SelectedIndices(rows, filter), runs, now)
  }

  /** The events gathered by the cycle, in the order they were appended. */
  function Gathered(rows: seq<Bookmaker>, filter: Option<int>, runs: seq<ScraperRun>): seq<Event>
    requires |runs| == |rows|
  {
    Scrape(rows, SelectedIndices(rows, filter), runs).events
  }

  /** Lines 107-110: the opportunities found in the gathered events; none are searched for when there are no events. */
  function Found(events: seq<Event>): seq<Opportunity>
  {
    if |events| == 0 then [] else SortDesc(Discover(events, DefaultMinProfit), Percent)
  }

  /** Lines 46-110 and 161: the result the cycle returns. */
  function Cycle(rows: seq<Bookmaker>, filter: Option<int>, runs: seq<ScraperRun>, now: Instant): CycleResult
    requires |runs| == |rows|
  {
    var sel := SelectedIndices(rows, filter);
    if |sel| == 0 then CycleResult(false, now, 0, 0, 0, ["No active bookmakers found"])
    else
      var t := Scrape(rows, sel, runs);
      CycleResult(true, now, t.processed, t.scraped, |Found(t.events)|, t.errors)
  }

  /** Exactly the selected rows are visited, each once, in table order. */
  lemma {:induction false} SelectedIndicesExact(rows: seq<Bookmaker>, filter: Option<int>)
    ensures var r := SelectedIndices(rows, filter);
      && (forall i :: 0 <= i < |rows| ==> (i in r <==> Selected(rows[i], filter)))
      && (forall j, k :: 0 <= j < k < |r| ==> r[j] < r[k])
  {
    if |rows| > 0 {
      var p := rows[..|rows| - 1];
      SelectedIndicesExact(p, filter);
      assert forall i :: 0 <= i < |p| ==> p[i] == rows[i];
    }
  }

  /** Line 57: an id of 0 is falsy and selects like no id at all. */
  lemma {:induction false} ZeroIdSelectsAll(rows: seq<Bookmaker>)
    ensures SelectedIndices(rows, Some(0)) == SelectedIndices(rows, None)
  {
    if |rows| > 0 {
      ZeroIdSelectsAll(rows[..|rows| - 1]);
    }
  }

  /**
   * Lines 62-65: when no row is selected the cycle fails with its single error
   * before any scraping; no row is marked and no event is gathered.
   */
  lemma NoBookmakersSelected(rows: seq<Bookmaker>, filter: Option<int>, runs: seq<ScraperRun>, now: Instant)
    requires |runs| == |rows|
    requires forall i :: 0 <= i < |rows| ==> !Selected(rows[i], filter)
    ensures Cycle(rows, filter, runs, now) == CycleResult(false, now, 0, 0, 0, ["No active bookmakers found"])
    ensures AfterScraping(rows, filter, runs, now) == rows
    ensures Gathered(rows, filter, runs) == []
  {
    SelectedIndicesExact(rows, filter);
  }

  /** With a selected row the cycle succeeds, whatever its scrapers do. */
  lemma SomeBookmakerSelected(rows: seq<Bookmaker>, filter: Option<int>, runs: seq<ScraperRun>, now: Instant, i: int)
    requires |runs| == |rows| && 0 <= i < |rows| && Selected(rows[i], filter)
    ensures Cycle(rows, filter, runs, now).success
  {
    SelectedIndicesExact(rows, filter);
  }

  /**
   * Lines 72-77 and 101-104: every bookmaker attempted is counted, and each
   * one whose loop body does not run to its end adds exactly one error.
   */
  lemma {:induction false} ScrapeCounts(rows: seq<Bookmaker>, sel: seq<nat>, runs: seq<ScraperRun>)
    requires |runs| == |rows| && Indices(sel, |rows|)
    ensures var t := Scrape(rows, sel, runs);
      t.processed == |sel| && |t.errors| + Completions(rows, sel, runs) == |sel|
  {
    if |sel| > 0 {
      ScrapeCounts(rows, sel[..|sel| - 1], runs);
    }
  }

  /** Each error is the message of a bookmaker whose loop body did not run to its end. */
  lemma {:induction false} ErrorsComeFromFailures(rows: seq<Bookmaker>, sel: seq<nat>, runs: seq<ScraperRun>, e: string)
    requires |runs| == |rows| && Indices(sel, |rows|)
    requires e in Scrape(rows, sel, runs).errors
    ensures exists k :: 0 <= k < |sel| && !Completes(rows[sel[k]], runs[sel[k]]) && e == ErrorMessage(rows[sel[k]], runs[sel[k]])
  {
    var n := |sel| - 1;
    var p := sel[..n];
    if e in Scrape(rows, p, runs).errors {
      ErrorsComeFromFailures(rows, p, runs, e);
      var k :| 0 <= k < |p| && !Completes(rows[p[k]], runs[p[k]]) && e == ErrorMessage(rows[p[k]], runs[p[k]]);
      assert p[k] == sel[k];
    } else {
      assert !Completes(rows[sel[n]], runs[sel[n]]) && e == ErrorMessage(rows[sel[n]], runs[sel[n]]);
    }
  }

  /** The messages of the bookmakers at positions `sel` whose loop body does not run to its end, in visiting order. */
  function FailureMessages(rows: seq<Bookmaker>, sel: seq<nat>, runs: seq<ScraperRun>): seq<string>
    requires |runs| == |rows| && Indices(sel, |rows|)
  {
    if |sel| == 0 then []
    else
      var i := sel[|sel| - 1];
      FailureMessages(rows, sel[..|sel| - 1], runs) + (if Completes(rows[i], runs[i]) then [] else [ErrorMessage(rows[i], runs[i])])
  }

  /** Lines 75-77 and 101-104: the error list is exactly the failing turns' messages, one each, in bookmaker order. */
  lemma {:induction false} ErrorsAreFailureMessages(rows: seq<Bookmaker>, sel: seq<nat>, runs: seq<ScraperRun>)
    requires |runs| == |rows| && Indices(sel, |rows|)
    ensures Scrape(rows, sel, runs).errors == FailureMessages(rows, sel, runs)
  {
    if |sel| > 0 {
      ErrorsAreFailureMessages(rows, sel[..|sel| - 1], runs);
    }
  }

  /** Lines 76 and 102: every bookmaker whose loop body does not run to its end reports its own message. */
  lemma {:induction false} FailingTurnReported(rows: seq<Bookmaker>, sel: seq<nat>, runs: seq<ScraperRun>, k: int)
    requires |runs| == |rows| && Indices(sel, |rows|)
    requires 0 <= k < |sel| && !Completes(rows[sel[k]], runs[sel[k]])
    ensures ErrorMessage(rows[sel[k]], runs[sel[k]]) in Scrape(rows, sel, runs).errors
  {
    var n := |sel| - 1;
    var p := sel[..n];
    if k < n {
      assert p[k] == sel[k];
      FailingTurnReported(rows, p, runs, k);
    }
  }

  /**
   * Lines 84-90: every gathered event carries the id and name of a bookmaker
   * that has a registered scraper and whose scraper produced it.
   */
  lemma {:induction false} EventsAreTagged(rows: seq<Bookmaker>, sel: seq<nat>, runs: seq<ScraperRun>, j: int)
    requires |runs| == |rows| && Indices(sel, |rows|)
    requires 0 <= j < |Scrape(rows, sel, runs).events|
    ensures var e := Scrape(rows, sel, runs).events[j];
      exists k :: 0 <= k < |sel| && e.bookmakerId == rows[sel[k]].id && e.bookmakerName == rows[sel[k]].name
        && rows[sel[k]].name in ScraperNames && !runs[sel[k]].Unavailable?
  {
    var n := |sel| - 1;
    var p := sel[..n];
    var t := Scrape(rows, p, runs);
    var e := Scrape(rows, sel, runs).events[j];
    if j < |t.events| {
      EventsAreTagged(rows, p, runs, j);
      var k :| 0 <= k < |p| && t.events[j].bookmakerId == rows[p[k]].id && t.events[j].bookmakerName == rows[p[k]].name
        && rows[p[k]].name in ScraperNames && !runs[p[k]].Unavailable?;
      assert p[k] == sel[k];
    } else {
      assert e.bookmakerId == rows[sel[n]].id && e.bookmakerName == rows[sel[n]].name;
    }
  }

  /**
   * Lines 83-99: `events_scraped` counts only the events of bookmakers whose
   * loop ran to its end, so it never exceeds the events gathered, and equals
   * them when no scraper raised after gathering some.
   */
  lemma {:induction false} ScrapedCount(rows: seq<Bookmaker>, sel: seq<nat>, runs: seq<ScraperRun>)
    requires |runs| == |rows| && Indices(sel, |rows|)
    ensures var t := Scrape(rows, sel, runs);
      && t.scraped <= |t.events|
      && ((forall k :: 0 <= k < |sel| ==> !(runs[sel[k]].Raised? && |runs[sel[k]].appended| > 0)) ==> t.scraped == |t.events|)
  {
    if |sel| > 0 {
      var p := sel[..|sel| - 1];
      ScrapedCount(rows, p, runs);
      assert forall k :: 0 <= k < |p| ==> p[k] == sel[k];
    }
  }

  /** Line 110: the number reported is the number of opportunities the search finds. */
  lemma FoundCount(events: seq<Event>)
    ensures |Found(events)| == if |events| == 0 then 0 else |Discover(events, DefaultMinProfit)|
  {
    if |events| > 0 {
      SortDescPermutes(Discover(events, DefaultMinProfit), Percent);
      assert |multiset(Found(events))| == |multiset(Discover(events, DefaultMinProfit))|;
    }
  }

  /** Lines 93-95: only the selected bookmakers whose loop ran to its end get a new `last_scraped`. */
  lemma AfterScrapingMarks(rows: seq<Bookmaker>, filter: Option<int>, runs: seq<ScraperRun>, now: Instant, i: int)
    requires |runs| == |rows| && 0 <= i < |rows|
    ensures AfterScraping(rows, filter, runs, now)[i]
      == if Selected(rows[i], filter) && Completes(rows[i], runs[i]) then rows[i].(lastScraped := Some(now)) else rows[i]
  {
    SelectedIndicesExact(rows, filter);
  }

  /** The `Bookmaker` table. */
  class BookmakerTable {
    var rows: seq<Bookmaker>

    constructor (rows: seq<Bookmaker>)
      ensures this.rows == rows
    {
      this.rows := rows;
    }
  }

  /**
   * Lines 83-91 for one bookmaker's events: tag each one and append it,
   * counting as it goes.
   */
  method AppendTagged(events: seq<Event>, evs: seq<ScrapedEvent>, b: Bookmaker) returns (r: seq<Event>, count: nat)
    ensures r == events + TagAll(evs, b)
    ensures count == |evs|
  {
    r, count := events, 0;
    for j := 0 to |evs|
      invariant r == events + TagAll(evs[..j], b)
      invariant count == j
    {
      assert TagAll(evs[..j + 1], b) == TagAll(evs[..j], b) + [Tag(evs[j], b)];
      r := r + [Tag(evs[j], b)];
      count := count + 1;
    }
    assert evs[..|evs|] == evs;
  }

  /** One more completed turn marks its row, or leaves the table as it is. */
  lemma MarkStep(rows: seq<Bookmaker>, sel: seq<nat>, n: int, runs: seq<ScraperRun>, now: Instant)
    requires |runs| == |rows| && Indices(sel, |rows|) && 0 <= n < |sel|
    ensures var cur := Mark(rows, sel[..n], runs, now);
      var i := sel[n];
      Mark(rows, sel[..n + 1], runs, now)
        == if Completes(rows[i], runs[i]) then cur[i := cur[i].(lastScraped := Some(now))] else cur
  {
    assert forall j :: 0 <= j < |rows| ==> (j in sel[..n + 1] <==> j in sel[..n] || j == sel[n]);
  }

  /**
   * Lines 71-104: one bookmaker's turn, `rows[i]` being the bookmaker as the
   * query returned it and `run` what its scraper does.
   */
  method TakeTurn(table: BookmakerTable, rows: seq<Bookmaker>, i: int, run: ScraperRun, now: Instant, t: Tally)
    returns (r: Tally)
    requires 0 <= i < |rows| == |table.rows|
    modifies table
    ensures r == Attempt(t, rows[i], run)
    ensures table.rows
      == if Completes(rows[i], run) then old(table.rows)[i := old(table.rows)[i].(lastScraped := Some(now))] else old(table.rows)
  {
    var b := rows[i];
    var processed, events, scraped, errors := t.processed + 1, t.events, t.scraped, t.errors;
    var scraper := if b.name in ScraperNames then run else Unavailable;
    match scraper {
      case Unavailable =>
        errors := errors + ["No scraper available for " + b.name];
      case Raised(appended, message) =>
        var uncounted;
        events, uncounted := AppendTagged(events, appended, b);
        errors := errors + ["Error scraping " + b.name + ": " + message];
      case Returned(evs) =>
        var count;
        events, count := AppendTagged(events, evs, b);
        table.rows := table.rows[i := table.rows[i].(lastScraped := Some(now))];
        scraped := scraped + count;
    }
    r := Tally(processed, events, scraped, errors);
  }

  /** Lines 67-104: the turns of the bookmakers at positions `sel`, in that order. */
  method ScrapeAll(table: BookmakerTable, rows: seq<Bookmaker>, sel: seq<nat>, runs: seq<ScraperRun>, now: Instant)
    returns (tally: Tally)
    requires table.rows == rows && |runs| == |rows| && Indices(sel, |rows|)
    modifies table
    ensures tally == Scrape(rows, sel, runs)
    ensures table.rows == Mark(rows, sel, runs, now)
  {
    tally := Tally(0, [], 0, []);
    assert Mark(rows, [], runs, now) == rows;
    for n := 0 to |sel|
      invariant tally == Scrape(rows, sel[..n], runs)
      invariant table.rows == Mark(rows, sel[..n], runs, now)
    {
      assert sel[..n + 1][..n] == sel[..n];
      MarkStep(rows, sel, n, runs, now);
      tally := TakeTurn(table, rows, sel[n], runs[sel[n]], now, tally);
    }
    assert sel[..|sel|] == sel;
  }

  /**
   * Lines 107-149: search the gathered events when there are any, and save
   * what is found when anything is.
   */
  method SearchAndSave(store: OpportunityStore, events: seq<Event>, now: Instant) returns (found: nat)
    requires store.Valid()
    modifies store
    ensures found == |Found(events)|
    ensures store.records == Saved(old(store.records), Found(events), old(store.nextId), now)
    ensures store.nextId == old(store.nextId) + Misses(old(store.records), Found(events))
    ensures store.Valid()
  {
    found := 0;
    if |events| > 0 {
      var opps := FindArbitrageOpportunities(events, DefaultMinProfit);
      found := |opps|;
      if |opps| > 0 {
        store.SaveOpportunities(opps, now);
      }
    }
  }

  /**
   * Lines 40-161: one scraping cycle at time `now`. `runs[i]` is what the
   * scraper of row `i` does when it is run.
   */
  method TriggerScrapingJob(table: BookmakerTable, store: OpportunityStore, filter: Option<int>,
                            runs: seq<ScraperRun>, now: Instant) returns (result: CycleResult)
    requires |runs| == |table.rows| && store.Valid()
    modifies table, store
    ensures result == Cycle(old(table.rows), filter, runs, now)
    ensures table.rows == AfterScraping(old(table.rows), filter, runs, now)
    ensures store.records == Saved(old(store.records), Found(Gathered(old(table.rows), filter, runs)), old(store.nextId), now)
    ensures store.nextId == old(store.nextId) + Misses(old(store.records), Found(Gathered(old(table.rows), filter, runs)))
    ensures SelectedIndices(old(table.rows), filter) == [] ==> store.records == old(store.records) && store.nextId == old(store.nextId)
    ensures store.Valid()
  {
    var rows := table.rows;
    var sel := SelectedIndices(rows, filter);
    if |sel| == 0 {
      result := CycleResult(false, now, 0, 0, 0, ["No active bookmakers found"]);
      assert Mark(rows, sel, runs, now) == rows;
      return;
    }
    var tally := ScrapeAll(table, rows, sel, runs, now);
    var found := SearchAndSave(store, tally.events, now);
    result := CycleResult(true, now, tally.processed, tally.scraped, found, tally.errors);
  }
}
