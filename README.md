# Arbitrage engine and scraping cycle, modelled in Dafny

This project models the core of a sports-betting arbitrage finder. Bookmakers
quote decimal odds on the outcomes of a match. An arbitrage exists when the best
odds across bookmakers are high enough that backing every outcome returns more
than was staked. The model covers four parts:

- `calculate_arbitrage` and `calculate_stakes`
  (`backend/app/services/arbitrage_calculator.py`). They keep the first highest
  quote per outcome, compute `(1 - sum 1/odds) * 100`, and split a total stake in
  proportion to the reciprocal odds.
- `find_arbitrage_opportunities`, the pipeline over scraped events:
  - group the events by match key and the quotes by market key;
  - evaluate each market against the minimum profit;
  - build the display labels, the odds table and the stake details;
  - sort stably by percentage in descending order.
- `trigger_scraping_job` (`backend/app/services/scraper_manager.py`):
  - the bookmaker loop with its counters and error list, and the tagging and
    gathering of events;
  - the `last_scraped` update;
  - the update-or-insert of the opportunities found into the
    `ArbitrageOpportunity` table.

Modules, in dependency order:

- `Wrappers` (`wrappers.dfy`): `Option`.
- `Text` (`text.dfy`): Python's `str.split` on one character, its inverse
  `Join`, and ASCII `lower()`.
- `ArbitrageCalculator` (`calculator.dfy`): quotes, best-odds tables, the
  percentage, stake allocation. Also the two loops as methods proved to compute
  the specification functions.
- `CalculatorProperties` (`calculator_properties.dfy`): laws of the calculator.
- `Ranking` (`ranking.dfy`): the stable descending sort, both as a function and
  as an in-place insertion sort on an array.
- `Grouping` (`grouping.dfy`): insertion-ordered grouping, the model of a Python
  dict of lists filled in a loop, and its characterisation.
- `EventGrouping` (`event_grouping.dfy`):
  - match keys, the `type:outcome` encoding and market keys;
  - the two grouping loops;
  - the laws of the keys.
- `OpportunityFinder` (`opportunity_finder.dfy`): display labels, odds table,
  stake details, the opportunity record, and `FindArbitrageOpportunities`.
- `FinderProperties` (`finder_properties.dfy`): laws of the pipeline.
- `Reconciler` (`reconciler.dfy`): stored records, the update-or-insert of one
  batch, and the `OpportunityStore` class.
- `ScrapingCycle` (`scraping_cycle.dfy`): bookmaker selection, scraper
  outcomes, the cycle's result, and the `BookmakerTable` class.

Odds, stakes and percentages are `real` numbers. Odds are the subset type
`Odds` (strictly positive). Python dicts that are filled in a loop are modelled
as sequences in insertion order, because that order decides ties and the order
of the output. The clock and the scrapers are inputs: one `now: Instant` per
cycle, and for every bookmaker row a `ScraperRun` saying what its scraper does.
The `ScraperRun` options are:

- no module (`Unavailable`);
- raising after some events were gathered (`Raised`);
- returning events (`Returned`).

The model follows the code as written:

- The "at least two quotes" guard of `calculate_arbitrage` counts quotes, not
  distinct outcomes. Two quotes on one outcome with odds above 1 are therefore
  reported as an arbitrage (`CalculatorProperties.TwoQuotesOnOneOutcome`).
- Odds are never validated by the code. A zero would divide by zero at line 34,
  so positive odds are a precondition carried by the type `Odds`.
- `expected_profit` is `total * pct / 100`, which is `total * (1 - s)`. It is
  not the profit the stakes lock in, `total / s - total`, and is strictly below
  it (`CalculatorProperties.ExpectedProfitUnderstatesLockedIn`).

## Model

| member | source | states |
|---|---|---|
| ArbitrageCalculator.IndexOfOutcome | backend/app/services/arbitrage_calculator.py:26 | the dict lookup `outcome in outcomes`: -1 exactly when no entry has the outcome, otherwise the position of the first entry that has it |
| ArbitrageCalculator.CollectBestOdds | backend/app/services/arbitrage_calculator.py:20-30 | the loop with its strict `>` builds exactly the best-odds table of the quotes |
| ArbitrageCalculator.CalculateArbitrage | backend/app/services/arbitrage_calculator.py:6-38 | fewer than two quotes give (false, 0.0); otherwise the percentage is (1 - sum of 1/best odds) * 100, and arbitrage is reported exactly when it is positive |
| ArbitrageCalculator.SumReciprocal | backend/app/services/arbitrage_calculator.py:34 | the sum of reciprocals is non-negative, and positive for a non-empty table |
| ArbitrageCalculator.Allocation | backend/app/services/arbitrage_calculator.py:76-88 | one stake per best-odds entry, in table order, carrying that entry's outcome, bookmaker and odds |
| ArbitrageCalculator.EqualReturn | backend/app/services/arbitrage_calculator.py:82 | a stake of total * (1/odds) / s returns total / s at those odds |
| ArbitrageCalculator.CalculateStakes | backend/app/services/arbitrage_calculator.py:40-94 | with no percentage and no arbitrage: empty distribution and profit 0; otherwise the allocation over the best odds, with profit total * pct / 100 from the given or the computed percentage, the given one unchecked |
| ArbitrageCalculator.DistributeStakes | backend/app/services/arbitrage_calculator.py:76-88 | the loop builds exactly the allocation |
| CalculatorProperties.BestOddsAreFirstMaxima | backend/app/services/arbitrage_calculator.py:20-30 | the table has one entry per distinct outcome of the quotes, and each entry is the first quote with the maximal odds for its outcome, with that quote's bookmaker |
| CalculatorProperties.PercentageDependsOnlyOnMaxima | backend/app/services/arbitrage_calculator.py:16-38 | two quote lists that pass the guard alike and have the same outcomes with the same maximal odds evaluate identically |
| CalculatorProperties.RaisingOddsNeverLowersPercentage | backend/app/services/arbitrage_calculator.py:20-38 | if a second quote list has, position by position, the same outcomes and odds at least as high, its percentage is at least as high, and it is an arbitrage whenever the first one is |
| CalculatorProperties.RaisingOneQuote | backend/app/services/arbitrage_calculator.py:20-38 | raising the odds of any one quote never lowers the percentage |
| CalculatorProperties.TwoQuotesOnOneOutcome | backend/app/services/arbitrage_calculator.py:16-17 | two quotes on the same outcome with odds above 1 pass the guard and are reported as an arbitrage |
| CalculatorProperties.BreakEven | backend/app/services/arbitrage_calculator.py:34-38 | two outcomes at odds 2.0 give percentage 0 and no arbitrage, because the test is strict |
| CalculatorProperties.ThreeWayExample | backend/app/services/arbitrage_calculator.py:34-38 | odds 2.5, 3.6 and 4.5 on three outcomes give an arbitrage of exactly 10% |
| CalculatorProperties.AllocationPaysEqually | backend/app/services/arbitrage_calculator.py:72-88 | every stake times its odds equals total / s: each outcome returns the same amount |
| CalculatorProperties.AllocationSumsToTotal | backend/app/services/arbitrage_calculator.py:72-88 | the unrounded stakes of a non-empty table add up to the total stake |
| CalculatorProperties.DistributionCoversOutcomes | backend/app/services/arbitrage_calculator.py:59-88 | the distribution has pairwise distinct outcomes, exactly the outcomes of the quotes, each with its first best bookmaker and odds |
| CalculatorProperties.BestOddsNonEmpty | backend/app/services/arbitrage_calculator.py:20-30 | a non-empty quote list gives a non-empty table |
| CalculatorProperties.FoundExactly | backend/app/services/arbitrage_calculator.py:16-38 | arbitrage is reported if and only if there are at least two quotes and the sum of reciprocals of the best odds is below 1 |
| CalculatorProperties.FoundBounds | backend/app/services/arbitrage_calculator.py:34-38 | when arbitrage is reported, the sum of reciprocals lies strictly between 0 and 1 and the percentage is (1 - s) * 100 |
| CalculatorProperties.ExpectedProfitUnderstatesLockedIn | backend/app/services/arbitrage_calculator.py:92 | with a computed percentage, the expected profit is total * (1 - s), strictly less than the locked-in profit total / s - total |
| Ranking.SortDescIsDescending | backend/app/services/arbitrage_calculator.py:245 | the sorted list is in descending order of the key |
| Ranking.SortDescPermutes | backend/app/services/arbitrage_calculator.py:245 | the sorted list is a permutation of its input |
| Ranking.SortDescIsStable | backend/app/services/arbitrage_calculator.py:245 | for every key value, the elements with that key keep their input order |
| Ranking.SortInPlace | backend/app/services/arbitrage_calculator.py:245 | the in-place insertion sort on an array leaves exactly the stable descending sort of the array's old contents |
| Ranking.InsertNext | backend/app/services/arbitrage_calculator.py:245 | one insertion step places the next element behind every element with a key at least as large, and leaves the rest of the array untouched |
| Grouping.IndexOfKey | backend/app/services/arbitrage_calculator.py:117 | a key lookup among groups: -1 exactly when no group has the key, otherwise the first group that has it |
| Grouping.FirstIndexIsFirst | backend/app/services/arbitrage_calculator.py:117-124 | the first position of a key among the entries, and -1 exactly when it never occurs |
| Grouping.GroupAllIsGrouping | backend/app/services/arbitrage_calculator.py:113-138 | grouping in a loop gives groups ordered by the first occurrence of their key; each group takes its header from that first entry and holds the items of all entries with its key, in input order; every entry's key has a group |
| Grouping.GroupKeysDistinct | backend/app/services/arbitrage_calculator.py:117-124 | no two groups share a key |
| EventGrouping.MarketQuotes | backend/app/services/arbitrage_calculator.py:127-138 | each odds entry of a market becomes one quote tagged with the bookmaker name, the encoded `type:outcome`, its value and the market's params |
| EventGrouping.AppendEventQuotes | backend/app/services/arbitrage_calculator.py:127-138 | the nested loop appends exactly the event's quotes, market by market |
| EventGrouping.GroupByMatch | backend/app/services/arbitrage_calculator.py:113-138 | the loop builds exactly the match grouping of the events |
| EventGrouping.GroupByMarket | backend/app/services/arbitrage_calculator.py:143-166 | the loop builds exactly the market grouping of one match's quotes |
| EventGrouping.MatchGrouping | backend/app/services/arbitrage_calculator.py:113-138 | the match groups are a grouping of the events by match key, the first event of a key fixing home team, away team, league ('' when absent) and start time, with pairwise distinct keys |
| EventGrouping.MarketGrouping | backend/app/services/arbitrage_calculator.py:143-166 | the market groups are a grouping of the decodable quotes by market key, with pairwise distinct keys |
| EventGrouping.MatchKeySplits | backend/app/services/arbitrage_calculator.py:115 | a match key of fields without '\|' splits back into home team, away team and start time |
| EventGrouping.MatchKeyInjective | backend/app/services/arbitrage_calculator.py:115 | for fields without '\|', two events have the same match key exactly when they agree on home team, away team and start time |
| EventGrouping.MatchKeyCollision | backend/app/services/arbitrage_calculator.py:115-117 | teams "A\|B" v "C" and "A" v "B\|C" share a match key, so they are grouped as one match |
| EventGrouping.DecodeEncoded | backend/app/services/arbitrage_calculator.py:145-166 | an encoded quote decodes back to its outcome under its market key exactly when neither the market type nor the outcome contains ':', and is dropped otherwise |
| EventGrouping.MarketKeyInjective | backend/app/services/arbitrage_calculator.py:155-157 | for types without ':', two market keys are equal exactly when the types are equal and the params agree, with missing and empty params alike |
| Text.Split | backend/app/services/arbitrage_calculator.py:146 | `str.split` on one character gives one part more than there are separators, and no part holds the separator |
| Text.JoinSplit | backend/app/services/arbitrage_calculator.py:146 | joining the parts of a split with the separator gives back the string |
| Text.SplitJoin | backend/app/services/arbitrage_calculator.py:146 | splitting the join of separator-free parts gives back the parts |
| OpportunityFinder.CollectOddsByOutcome | backend/app/services/arbitrage_calculator.py:191-197 | the loop builds exactly the outcome-to-bookmaker-to-odds table |
| OpportunityFinder.StakeDetails | backend/app/services/arbitrage_calculator.py:204-225 | one detail per stake, in distribution order, with display outcome, bookmaker, odds, stake and stake times odds |
| OpportunityFinder.CollectStakeDetails | backend/app/services/arbitrage_calculator.py:204-225 | the loop builds exactly the stake details |
| OpportunityFinder.BuildOpportunity | backend/app/services/arbitrage_calculator.py:174-240 | the record built from a market: header fields of the match, display label, bookmakers, odds table, percentage, stakes for 10000 with the evaluator's percentage, details, total stake and expected profit |
| OpportunityFinder.CollectMarketOpportunities | backend/app/services/arbitrage_calculator.py:169-242 | the loop over one match's markets appends exactly the qualifying opportunities, in market order |
| OpportunityFinder.CollectOpportunities | backend/app/services/arbitrage_calculator.py:141-242 | the loop over the matches appends exactly the qualifying opportunities, match by match |
| OpportunityFinder.FindArbitrageOpportunities | backend/app/services/arbitrage_calculator.py:96-247 | the result is the stable descending sort of the discovered opportunities: in descending percentage order, a permutation of them, of the same length, with ties in discovery order |
| FinderProperties.DiscoverCharacterised | backend/app/services/arbitrage_calculator.py:141-242 | an opportunity is discovered exactly when some match and some market of it qualify and the opportunity is the one built from that market |
| FinderProperties.MarketOpportunitiesMembers | backend/app/services/arbitrage_calculator.py:169-242 | the opportunities of a match are exactly those built from its qualifying markets |
| FinderProperties.MatchOpportunitiesMembers | backend/app/services/arbitrage_calculator.py:141-242 | the opportunities of a match list are exactly those of its matches |
| FinderProperties.OpportunityIsSound | backend/app/services/arbitrage_calculator.py:170-240 | a qualifying market gives a positive percentage of at least the minimum, equal to (1 - s) * 100 with 0 < s < 1; total stake 10000; stakes summing to 10000; expected profit 10000 * (1 - s) |
| FinderProperties.StakeDetailsPayEqually | backend/app/services/arbitrage_calculator.py:199-225 | there is one stake detail per outcome; each returns 10000 / s, which exceeds the 10000 staked, and mirrors its stake and bookmaker |
| FinderProperties.DiscoveredAreSound | backend/app/services/arbitrage_calculator.py:96-242 | every discovered opportunity has a positive percentage of at least the minimum, and stakes summing to the total stake of 10000 |
| FinderProperties.OddsByOutcomePresence | backend/app/services/arbitrage_calculator.py:191-197 | an outcome, and a bookmaker under it, are in the odds table exactly when some quote has them |
| FinderProperties.OddsByOutcomeLastWins | backend/app/services/arbitrage_calculator.py:197 | the odds stored for an outcome and bookmaker are those of the last quote with that pair |
| FinderProperties.KeyRoundTrip | backend/app/services/arbitrage_calculator.py:174-176 | splitting a market key gives back its type, and its params exactly when they are truthy |
| FinderProperties.DisplayMarketOfKey | backend/app/services/arbitrage_calculator.py:179-185 | the label is the bare type without params; "Over/Under p" for over_under in any case; "type p" otherwise |
| FinderProperties.DisplayOutcomeOfKey | backend/app/services/arbitrage_calculator.py:212-217 | in an over_under market with params, outcomes over and under (in any case) read "Over p" and "Under p"; every other outcome is unchanged |
| FinderProperties.DisplayMarketTruncates | backend/app/services/arbitrage_calculator.py:174-185 | params containing ':' are cut at the first ':' in the label, because the market key is split again |
| Reconciler.FirstMatchIsFirst | backend/app/services/scraper_manager.py:117-122 | the lookup finds the first active stored record with the opportunity's home team, away team and market label, and -1 exactly when there is none |
| Reconciler.Saved | backend/app/services/scraper_manager.py:113-147 | the number of records grows by exactly the number of opportunities that find no stored record, and by nothing else |
| Reconciler.SavedKeepsIdsUnique | backend/app/services/scraper_manager.py:131-147 | ids stay unique and below the next id, which grows by the number of inserts |
| Reconciler.SavedKeepsIdentity | backend/app/services/scraper_manager.py:124-130 | no stored record is deleted, deactivated or re-keyed: id, teams, league, start time, market, bookmakers, total stake, active flag and detection time stay as they were |
| Reconciler.SavedLeavesUnmatched | backend/app/services/scraper_manager.py:113-149 | a stored record that no opportunity of the batch matches comes out unchanged |
| Reconciler.SavedLastMatchWins | backend/app/services/scraper_manager.py:124-130 | a stored record matched in the batch carries the odds, percentage, stakes and expected profit of the last opportunity that matched it, and last_verified_at = now |
| Reconciler.DuplicatesBothInserted | backend/app/services/scraper_manager.py:117-147 | two opportunities of one batch that find no stored record are both inserted, since inserts are not visible to the lookups of the same batch |
| Reconciler.SavedAppendsNewRecords | backend/app/services/scraper_manager.py:131-147 | the records after the batch are the stored ones followed by one new active record per unmatched opportunity, in batch order, with consecutive ids and both timestamps now |
| Reconciler.OpportunityStore.SaveOpportunities | backend/app/services/scraper_manager.py:113-149 | the loop leaves exactly the saved records and advances the next id by the number of inserts, keeping ids unique |
| ScrapingCycle.SelectedIndicesExact | backend/app/services/scraper_manager.py:56-60 | exactly the active rows with the requested id, or all active rows when no non-zero id is given, are visited, in table order |
| ScrapingCycle.ZeroIdSelectsAll | backend/app/services/scraper_manager.py:57 | an id of 0 selects like no id |
| ScrapingCycle.NoBookmakersSelected | backend/app/services/scraper_manager.py:62-65 | with no selected row the result is failure with the single error "No active bookmakers found" and all counters zero; no row is marked and no event gathered |
| ScrapingCycle.SomeBookmakerSelected | backend/app/services/scraper_manager.py:46-65 | with a selected row the cycle reports success, whatever its scrapers do |
| ScrapingCycle.ScrapeCounts | backend/app/services/scraper_manager.py:70-104 | every attempted bookmaker is counted as processed; each one without a scraper or whose scraper raises adds exactly one error |
| ScrapingCycle.ErrorsAreFailureMessages | backend/app/services/scraper_manager.py:70-104 | the error list is exactly the messages of the attempted bookmakers whose turn did not complete, one each, in the order the bookmakers are visited |
| ScrapingCycle.FailingTurnReported | backend/app/services/scraper_manager.py:75-104 | every attempted bookmaker whose turn did not complete has its own message in the error list |
| ScrapingCycle.ErrorsComeFromFailures | backend/app/services/scraper_manager.py:75-104 | each error is the "No scraper available for" or "Error scraping" message of an attempted bookmaker whose turn did not complete |
| ScrapingCycle.EventsAreTagged | backend/app/services/scraper_manager.py:84-90 | every gathered event carries the id and name of an attempted bookmaker with a registered scraper that ran |
| ScrapingCycle.ScrapedCount | backend/app/services/scraper_manager.py:83-99 | events_scraped never exceeds the events gathered, and equals them when no scraper raised after some events were gathered |
| ScrapingCycle.FoundCount | backend/app/services/scraper_manager.py:107-110 | the reported count is the number of discovered opportunities, and 0 when there are no events |
| ScrapingCycle.AfterScrapingMarks | backend/app/services/scraper_manager.py:93-95 | only selected bookmakers whose turn completed get last_scraped = now; every other row is unchanged |
| ScrapingCycle.AppendTagged | backend/app/services/scraper_manager.py:83-91 | the loop appends every event tagged with the bookmaker and counts them |
| ScrapingCycle.TakeTurn | backend/app/services/scraper_manager.py:71-104 | one bookmaker's turn updates the counters, events and errors as specified, and marks the row exactly when the turn completes |
| ScrapingCycle.ScrapeAll | backend/app/services/scraper_manager.py:67-104 | the bookmaker loop gives exactly the specified counters, events and errors and the specified table |
| ScrapingCycle.SearchAndSave | backend/app/services/scraper_manager.py:106-149 | the search runs only on a non-empty event list, the count is that of the found opportunities, the store holds them saved, and the next free id advances by the number of opportunities that matched no stored record |
| ScrapingCycle.TriggerScrapingJob | backend/app/services/scraper_manager.py:40-161 | the cycle returns the specified result, leaves the bookmaker table with the specified last_scraped marks, and saves into the store exactly the sorted opportunities found in the gathered events; the next free id advances by the number of new records, and when no bookmaker is selected the store is left unchanged |

## Left out

- Rounding: `round(stake, 2)` and `round(expected_profit, 2)` (arbitrage_calculator.py lines 85 and 94) are left out. Stakes, potential returns and profit are the unrounded real values. The source computes `potential_return` from the rounded stake.
- Floating point: odds, stakes and percentages are exact reals. Comparisons that binary floats could flip, such as the break-even case, follow real arithmetic.
- Zero or negative odds are excluded by the type `Odds`. The source would divide by zero or accept them.
- The database session is not modelled: queries, `db.add`, `db.commit` and `db.close` are absent. The store is a sequence of records. The bookmaker query's results and the unordered `.first()` follow the stored order. The session is created with `autoflush=False` (backend/app/core/database.py line 14), so the lookups see only the records present before the batch.
- The scrapers and the dynamic import (scraper_manager.py lines 24-38 and 80) are inputs. Each row's `ScraperRun` says what its scraper does, and a failed import is `Unavailable`.
- The clock: `datetime.utcnow()` is a single `now` per cycle. It serves as the result timestamp, every `last_scraped`, every `last_verified_at` and both timestamps of a new record. `isoformat()` is not modelled: the start time is an opaque string.
- The exception branch of lines 156-159 is left out. Over the model's inputs, the search and the save cannot raise. A failing `db.commit` at line 95 or 149 is left out as well.
- In-place mutation of the scraper's event dictionaries (lines 86-87) is not modelled. The model builds tagged copies, so aliasing of those dictionaries is not captured.
- `event.get('league', '')` is modelled with `league: Option<string>`, where `None` reads as `''`. The model does not separate a missing key from a key holding `None`, which Python would pass through as `None`.
- Missing `markets` or `odds` keys are modelled as empty sequences. Market params are strings or absent; params of other types are not modelled.
- `list(set(...))` of bookmakers is a `set<string>`, because its order is unspecified in Python.
- The `Bookmaker` row keeps only id, name, active flag and last_scraped; `url` and `logo_url` are unused by the core. The stored record omits `created_at`, `updated_at` and the notifications relationship.
- The commented notification hook (lines 151-155), `create_mock_scrapers`, the web routes, authentication, Firebase, notifications, configuration and entry points are outside this model.
- OpportunityFinder.OddsByOutcome: the table is a Dafny `map`, which has no order. The model does not keep the insertion order of outcomes and bookmakers that the Python dict has. The opportunity's odds_by_outcome field therefore holds the same pairs as the dict but not their order. The percentage and the stakes come from the best-odds list, which keeps its own order, so they do not depend on the map.
- Text.Lower: it lowers ASCII letters only, while Python's `str.lower()` handles all of Unicode. The code compares lowered strings only with the ASCII literals "over_under", "over" and "under", so both give the same result on every input.
