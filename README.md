# PropScope odds pipeline, in Dafny

PropScope compares NBA player-prop odds from two books, SIA and FanDuel. For every
fixture the scraper stores snapshots of normalized odds. Each snapshot maps a player
and a prop type (points, rebounds, …) to a line, both books' American odds, and both
books' no-vig probabilities. The *gap* of a side is FanDuel's no-vig probability minus
SIA's.

This project models the logic between the snapshot store and the screen:

- **Snapshot cache** (`odds_cache.dfy`, module `OddsCache`). This is the server's in-memory map from
  fixture id to snapshot history.
  - It is filled lazily from the store on a miss or an empty entry.
  - `addSnapshot` appends to an entry.
  - The class `SnapshotCache` holds the map and a store-read counter. Its two methods are
    specified by the pure functions `Added` and `Get`.
  - The store is a value. It holds the stored rows and a flag saying whether it can be
    reached. Reading the history returns the rows in `snapshot_time` order, and reading
    the latest returns the last row of that history.
- **Odds board** (`odds_board.dfy` `OddsBoard`, `board_pipeline.dfy` `BoardPipeline`).
  - Choosing which fixtures to fetch.
  - The fetches, through the cache routes.
  - Merging the latest snapshots into the fixture→snapshot map.
  - Flattening the map into one row per (fixture, player, prop type).
  - The filter.
  - The stable sort.
  - The team and prop-type lists.
  - The window that grows by 12 rows.
  - The view the board renders. The class `BoardState` holds the board's state.
- **Live board** (`nba_odds_board.dfy`, module `LiveBoard`). The per-fixture merge on the initial load, the same
  flattening, and the waiting message.
- **Filter record and its controls** (`filters.dfy`, module `FilterState`).
- **Gap classification, the sign prefix, odds formatting and prop labels** (`gap_engine.dfy`, module `GapEngine`).
- **Props table** (`props_table.dfy`, module `PropsTable`). Its sort values, its ordering, and the
  header-click rule in the class `TableSort`.
- **History charts** (`charts.dfy`, module `HistoryCharts`). One point per snapshot that holds the selected prop.
- **Shared definitions.**
  - `stable_sort.dfy` (`StableSort`) is a stable insertion sort. It takes a key that
    yields a number or a string and compares keys with JavaScript's `<`. It models
    `Array.prototype.sort`, which must be stable (section 23.1.3.30 of ECMA-262).
  - `odds_types.dfy` (`OddsTypes`) holds the record types and the
    `props[player][propType]` lookup.
  - `wrappers.dfy` holds `Option` and `Result`.

Probabilities and gaps are `real`. The code only subtracts them, scales them by 100
and compares them. A payload's `props` object is a list of (player, prop entries)
pairs, in the order `Object.entries` yields them. Its keys are distinct, because they
come from a JSON object.

## Model

| member | source | states |
|---|---|---|
| OddsTypes.FindPlayer | app/sports/nba/components/gapChart.tsx:40-41 | `props[player]` is found iff some entry has that player name, and what is found is that entry's props |
| OddsTypes.FindProp | app/sports/nba/components/gapChart.tsx:40-41 | `[propType]` is found iff some entry has that prop type, and the prop found is stored under it |
| OddsTypes.LookupFindsEntry | app/sports/nba/components/oddsChart.tsx:48-50 | in a payload with distinct keys, `props[player][propType]` yields a prop iff the payload holds exactly that prop under that player and prop type |
| OddsTypes.FindPlayerUnique | app/sports/nba/components/oddsChart.tsx:48-49 | with distinct player names, looking up a listed player finds that player's own props |
| OddsTypes.FindPropUnique | app/sports/nba/components/oddsChart.tsx:48-49 | with distinct prop types, looking up a stored prop type finds its own prop |
| StableSort.InsertPermutes | app/sports/nba/components/propsTable.tsx:91-97 | inserting one element into a list gives a permutation of the element plus the list |
| StableSort.Sort | app/sports/nba/components/propsTable.tsx:91-97 | the sorted copy is a permutation of the input |
| StableSort.LessStrictTotalOrder | app/sports/nba/components/propsTable.tsx:94-95 | JavaScript `<` over numbers and strings is irreflexive, transitive and total, so the comparator is consistent |
| StableSort.BeforeSplits | app/sports/nba/components/propsTable.tsx:94-95 | if a key comes before another in the chosen direction, any third key comes after the first or before the second |
| StableSort.BeforeAsymmetric | app/sports/nba/components/propsTable.tsx:94-95 | two keys never each come before the other in the same direction |
| StableSort.InsertOrdered | app/sports/nba/components/propsTable.tsx:91-97 | inserting into an ordered list keeps it ordered |
| StableSort.SortOrdered | app/sports/nba/components/oddsBoard.tsx:198-225 | no element of the result comes before an earlier one in the chosen direction |
| StableSort.KeyClassOfInsert | app/sports/nba/components/propsTable.tsx:91-97 | insertion keeps the order of the elements that share a key |
| StableSort.SortStable | app/sports/nba/components/oddsBoard.tsx:198-225 | for every key, the elements with that key appear in the result in their input order |
| StableSort.KeyClassOfUniform | app/sports/nba/components/oddsBoard.tsx:199 | when every element has the same key, that key's elements are the whole list |
| StableSort.UniformKeyKeepsOrder | app/sports/nba/components/oddsBoard.tsx:199 | a comparator that calls everything equal leaves the list as it is |
| StableSort.SortOfOrdered | app/sports/nba/components/propsTable.tsx:91-97 | an already-ordered list is returned unchanged |
| OddsCache.ReadHistory | lib/queries/odds.ts:36-47 | the history read succeeds iff the store is reachable; it returns a permutation of the fixture's stored rows in time order |
| OddsCache.ReadHistoryOfChronologicalRows | lib/queries/odds.ts:36-47 | rows stored in time order are returned exactly as stored |
| OddsCache.LatestOf | app/sports/nba/components/oddsBoard.tsx:76 | the last snapshot of a history, none iff the history is empty, and no earlier than any other in a chronological history |
| OddsCache.ReadLatest | lib/queries/odds.ts:13-25 | the latest read succeeds iff the store is reachable; it yields none iff the fixture has no rows, else the newest stored row |
| OddsCache.Added | lib/oddsCache.ts:24-28 | after `addSnapshot` the entry is the earlier entry (or nothing) plus the snapshot at its end; every other key is unchanged |
| OddsCache.Get | lib/oddsCache.ts:38-46 | on a non-empty entry: that entry, no read, cache unchanged; otherwise: one read, whose success is cached under the fixture and whose failure leaves the cache unchanged |
| OddsCache.RepeatedGetIsServedFromCache | lib/oddsCache.ts:39-45 | after a get returned a non-empty list, the next get returns the same list with no read, even if the store has changed |
| OddsCache.EmptyHistoryIsReadAgain | lib/oddsCache.ts:40-44 | an empty history is cached but is no hit, so the next get reads the store again |
| OddsCache.GetAfterAdd | lib/oddsCache.ts:24-42 | after `addSnapshot`, a get returns the earlier entry plus the snapshot, with no read |
| OddsCache.ColdGetReturnsStoredHistory | lib/oddsCache.ts:38-46 | on an empty cache, a get returns the stored rows with one read and caches them |
| OddsCache.SnapshotCache.constructor | lib/oddsCache.ts:14 | the cache starts empty, with no reads made |
| OddsCache.SnapshotCache.AddSnapshot | lib/oddsCache.ts:24-28 | the cache becomes `Added` of the old cache and makes no store read |
| OddsCache.SnapshotCache.GetCachedOdds | lib/oddsCache.ts:38-46 | the result, the new cache and the number of reads made are those `Get` gives for the old cache |
| OddsCache.GetTwice | lib/oddsCache.ts:39-45 | when the first of two gets returned a non-empty list, the second returns the same list and makes no read |
| FilterState.InitialFilters | app/sports/nba/components/oddsBoard.tsx:131-156 | the board starts from the saved filters, or from the defaults when none are saved |
| FilterState.ActiveCount | app/sports/nba/components/filter.tsx:33-39 | the badge count is at most 5, and it is 0 iff team, prop type and direction are empty and both thresholds are 0 |
| FilterState.NumberInput | app/sports/nba/components/filter.tsx:203-206 | an empty or unparsable number input gives 0, and a parsed number gives that number |
| FilterState.Flip | app/sports/nba/components/filter.tsx:277-281 | the sort-direction toggle always changes the direction |
| FilterState.ControlsReplaceOneField | app/sports/nba/components/filter.tsx:70-293 | each control replaces one field, the one it sets, and keeps the others; reset gives the defaults, whose count is 0 |
| FilterState.ToggleTwiceRestores | app/sports/nba/components/filter.tsx:277-281 | toggling the sort direction twice restores the filters |
| FilterState.SortControlsNotCounted | app/sports/nba/components/filter.tsx:33-39 | the sort controls never change the active count |
| GapEngine.GapType | app/sports/nba/components/propsTable.tsx:49-53 | exactly one class: positive iff gap > 0.001, negative iff gap < -0.001, neutral iff within the dead zone |
| GapEngine.GapSignPrefix | app/sports/nba/components/oddsCard.tsx:33-35 | the gap display starts with "+" iff the gap is positive |
| GapEngine.ClassAgreesWithSign | app/sports/nba/components/oddsCard.tsx:33-41 | a positive gap shows "+" and a negative gap does not; a tiny positive gap is neutral yet still shows "+" |
| GapEngine.CardGapClasses | app/sports/nba/components/oddsCard.tsx:96-97 | the card classifies the over gap and the under gap independently, each being FanDuel minus SIA on its side |
| GapEngine.FmtOdds | app/sports/nba/components/propsTable.tsx:41-43 | the odds text starts with "+" iff n > 0 and with "-" iff n < 0; zero is printed bare |
| GapEngine.FmtOddsRoundTrip | app/sports/nba/components/propsTable.tsx:41-43 | reading the formatted odds back gives the original number |
| GapEngine.PropLabel | app/sports/nba/components/oddsCard.tsx:80 | a prop type with a label is shown as the label, and any other prop type as its raw name |
| GapEngine.LabelExamples | app/sports/nba/components/oddsCard.tsx:18-27 | the card's label for points is "PTS", the table's for points_assists is "Pts + Ast", and an unknown type keeps its name |
| OddsBoard.FixtureIds | app/sports/nba/components/oddsBoard.tsx:60 | one id per fixture, in fixture order |
| OddsBoard.PlanFetch | app/sports/nba/components/oddsBoard.tsx:56-62 | a non-empty update batch is fetched as latest reads; otherwise every fixture id as history reads; nothing when both are empty |
| OddsBoard.LatestOfResult | app/sports/nba/components/oddsBoard.tsx:74-77 | a history read yields its last snapshot (none for an empty history), and its failure is passed on |
| OddsBoard.FetchLatestOdds | app/sports/nba/components/oddsBoard.tsx:66-78 | a latest read returns the store's newest row and appends it to the cache; a history read goes through the cache and returns the last snapshot |
| OddsBoard.FetchAll | app/sports/nba/components/oddsBoard.tsx:64-80 | the batch fails iff the store is down and some fetch needs it (every latest read, a history read only on a miss); the cache ends as the in-order fold of the fetches (`CacheAfter`: latest reads append the newest row, history reads are gets); on success the results are `FetchedAll`, one per id in order |
| OddsBoard.FetchedAllSpec | app/sports/nba/components/oddsBoard.tsx:64-80 | a batch yields one result per id, in order; with a reachable store a latest read's result is the store's newest row, and a history read's is the last snapshot of the history it was served |
| OddsBoard.CacheAfterKeepsOthers | lib/oddsCache.ts:24-28 | fixtures outside the batch keep their cache entries |
| OddsBoard.CacheAfterUnreachable | app/sports/nba/components/oddsBoard.tsx:64-80 | with the store down a batch caches nothing |
| OddsBoard.CacheAfterLatest | lib/oddsCache.ts:24-28 | after a batch of latest reads, each fixture read that has stored rows ends its cache entry with the store's newest snapshot, whatever is read after it |
| OddsBoard.CacheAfterLatestReads | app/sports/nba/components/oddsBoard.tsx:66-78 | latest reads make no history reads |
| OddsBoard.CacheAfterHistory | lib/oddsCache.ts:38-46 | history reads against a reachable store make at most one store read per id and leave each fixture of the batch cached with the history it was served |
| OddsBoard.ServedAfter | lib/oddsCache.ts:38-46 | history reads never change what a later read of any fixture is served, so a batch with repeated ids serves each the same history |
| OddsBoard.MergeOne | app/sports/nba/components/oddsBoard.tsx:85 | a found snapshot overwrites its fixture's entry; none leaves the map unchanged; other keys are untouched |
| OddsBoard.LastFoundSpec | app/sports/nba/components/oddsBoard.tsx:84-86 | a snapshot is found for an id iff some result for it holds one, and it is the last such result |
| OddsBoard.MergedKeepsOrOverwrites | app/sports/nba/components/oddsBoard.tsx:82-88 | after the merge, an id with a found snapshot maps to its last one, and every other id keeps its earlier entry or stays absent |
| OddsBoard.MergeFetched | app/sports/nba/components/oddsBoard.tsx:82-88 | the copy-and-assign loop gives the merged map |
| OddsBoard.LastFoundOfDistinct | app/sports/nba/components/oddsBoard.tsx:84-86 | with distinct ids, each id's found snapshot is its own result |
| OddsBoard.MergeOrderIrrelevant | app/sports/nba/components/oddsBoard.tsx:82-88 | for results with distinct ids, any arrival order gives the same map |
| OddsBoard.FlattenRows | app/sports/nba/components/oddsBoard.tsx:95-129 | the nested push loops build exactly the rows of every fixture, in fixture order |
| OddsBoard.PushPlayerRows | app/sports/nba/components/oddsBoard.tsx:116-128 | the loop over players appends that payload's rows |
| OddsBoard.PushEntryRows | app/sports/nba/components/oddsBoard.tsx:117-127 | the loop over prop types appends one row per entry |
| OddsBoard.EntryRowsShape | app/sports/nba/components/oddsBoard.tsx:117-127 | one row per prop entry, in order, carrying the player, the prop and the fixture's fields |
| OddsBoard.PlayerRowsCount | app/sports/nba/components/oddsBoard.tsx:116-128 | a payload gives as many rows as it has (player, prop type) entries |
| OddsBoard.PlayerRowsMembers | app/sports/nba/components/oddsBoard.tsx:116-128 | a row comes from a payload iff the payload holds its player, prop type and prop, and the row carries the fixture's fields |
| OddsBoard.FixtureRowsSpec | app/sports/nba/components/oddsBoard.tsx:96-129 | a fixture with no snapshot gives no rows; otherwise one row per entry, each with the fixture's teams, date and id |
| OddsBoard.AllRowsConcat | app/sports/nba/components/oddsBoard.tsx:95-129 | rows follow fixture order |
| OddsBoard.AllRowsMembers | app/sports/nba/components/oddsBoard.tsx:95-129 | a row is shown iff it is a row of some listed fixture |
| OddsBoard.AllRowsIgnoresOtherKeys | app/sports/nba/components/oddsBoard.tsx:96-98 | map keys that belong to no listed fixture do not change the rows |
| BoardPipeline.PassesIff | app/sports/nba/components/oddsBoard.tsx:162-196 | a row passes iff each of these holds: the team matches the home or away team (or is unset); the prop type matches (or is unset); the chosen gap, or the larger gap when no side is chosen, reaches the minimum (or the minimum is 0); and with a side chosen, FanDuel's no-vig reaches its minimum (or that minimum is 0) |
| BoardPipeline.FilterRows | app/sports/nba/components/oddsBoard.tsx:162-196 | the filtered list holds exactly the rows that pass, and no more rows than the input |
| BoardPipeline.FilterIsSubsequence | app/sports/nba/components/oddsBoard.tsx:162 | the filtered list is a subsequence of the rows |
| BoardPipeline.FilterIdempotent | app/sports/nba/components/oddsBoard.tsx:162-196 | filtering again with the same filters changes nothing |
| BoardPipeline.SortSettingsDoNotFilter | app/sports/nba/components/oddsBoard.tsx:162-196 | the sort settings play no part in which rows pass |
| BoardPipeline.NoVigThresholdNeedsDirection | app/sports/nba/components/oddsBoard.tsx:184-193 | with no side chosen, the no-vig threshold filters nothing out, yet it adds one to the active count |
| BoardPipeline.UndirectedFilterAndSortDiffer | app/sports/nba/components/oddsBoard.tsx:178-211 | with no side chosen, a row can pass on its under gap while it sorts by its (negative) over gap |
| BoardPipeline.LakersPointsExample | app/sports/nba/components/oddsBoard.tsx:162-196 | with team Lakers, prop points and minimum over gap 2, a 3.2-point Lakers points row passes and a Lakers rebounds row does not |
| BoardPipeline.SortRowsSpec | app/sports/nba/components/oddsBoard.tsx:198-225 | the sorted rows are a permutation of the filtered rows; the key is non-increasing for desc and non-decreasing for asc; equal keys keep their order; with no sort column the order is unchanged |
| BoardPipeline.Dedupe | app/sports/nba/components/oddsBoard.tsx:228-233 | `[...new Set(s)]` holds exactly the values of `s`, each once |
| BoardPipeline.DedupeFirstOccurrenceOrder | app/sports/nba/components/oddsBoard.tsx:228-233 | the distinct values appear in order of first occurrence |
| BoardPipeline.TeamNames | app/sports/nba/components/oddsBoard.tsx:228-230 | the team list is duplicate-free and holds exactly the home and away teams of the rows |
| BoardPipeline.PropTypeNames | app/sports/nba/components/oddsBoard.tsx:233 | the prop-type list is duplicate-free and holds exactly the rows' prop types |
| BoardPipeline.LoadMoreCount | app/sports/nba/components/oddsBoard.tsx:245 | load-more never goes past the row count nor past one page more, and it grows the window while rows remain hidden |
| BoardPipeline.LoadMoreTimesValue | app/sports/nba/components/oddsBoard.tsx:245 | from inside the rows, k load-more signals show `min(prev + 12k, total)` rows |
| BoardPipeline.LoadMoreReachesEnd | app/sports/nba/components/oddsBoard.tsx:242-254 | enough load-more signals show every row, assuming each signal arrives |
| BoardPipeline.VisibleRows | app/sports/nba/components/oddsBoard.tsx:323 | the first `min(visibleCount, sorted.length)` sorted rows are rendered |
| BoardPipeline.LoadMoreWhileLoaderShown | app/sports/nba/components/oddsBoard.tsx:244-246 | while the loader shows, load-more reveals more rows, never more than exist |
| BoardPipeline.ResetWindowMayExceedRows | app/sports/nba/components/oddsBoard.tsx:256-259 | after a reset with fewer than 12 rows, every row is shown and no loader |
| BoardPipeline.View | app/sports/nba/components/oddsBoard.tsx:262-334 | the spinner shows iff nothing is fetched yet and there are fixtures; otherwise the board shows iff there are rows, the schedule (of exactly the fixtures) iff there are fixtures but no rows, and the no-games message iff there are no fixtures; the board offers the rows' team and prop-type lists, shows the first `visibleCount` of the filtered, sorted rows, and shows the loader iff `visibleCount < sorted.length` |
| BoardPipeline.WindowOfPermutation | app/sports/nba/components/oddsBoard.tsx:323-332 | a window over any arrangement of the passing rows shows `min(visibleCount, passing)` of them, only passing rows, the loader iff some remain hidden, and all of them once it covers them |
| BoardPipeline.BoardViewShows | app/sports/nba/components/oddsBoard.tsx:162-332 | the board's window over a set of rows shows `min(visibleCount, passing)` rows, each a passing row from that set, best first in the chosen direction; the loader shows iff passing rows remain hidden; a covering window shows every passing row |
| BoardPipeline.BoardState.constructor | app/sports/nba/components/oddsBoard.tsx:52-53 | the board starts with an empty map, nothing fetched, the saved or default filters, and a 12-row window |
| BoardPipeline.BoardState.Refresh | app/sports/nba/components/oddsBoard.tsx:55-93 | with no ids nothing is fetched and the cache is untouched; otherwise the cache ends as `CacheAfter` of the plan, the batch fails iff `BatchFails`, a failed batch leaves map and flag unchanged, and a successful one merges `FetchedAll` into the map and marks the board fetched; each result is what its route returns |
| BoardPipeline.BoardState.ChangeFilters | app/sports/nba/components/oddsBoard.tsx:256-259 | a filter change replaces the filters and resets the window to 12 |
| BoardPipeline.BoardState.LoadMore | app/sports/nba/components/oddsBoard.tsx:244-246 | load-more sets the window to `min(prev + 12, sorted.length)` |
| PropsTable.Lower | app/sports/nba/components/propsTable.tsx:62 | lower-casing keeps the length and maps each character |
| PropsTable.LowerIdempotent | app/sports/nba/components/propsTable.tsx:62-64 | lower-cased text has no upper-case letter, so lower-casing again changes nothing |
| PropsTable.TextColumnsIgnoreCase | app/sports/nba/components/propsTable.tsx:59-65 | the player and matchup columns sort without regard to case; the matchup sorts as "away home" |
| PropsTable.TableRowsSpec | app/sports/nba/components/propsTable.tsx:90-98 | the table shows a permutation of its rows, ordered by the column in the chosen direction, equal values in incoming order; on a gap column, largest gap first when descending |
| PropsTable.TableRowsOfOrdered | app/sports/nba/components/propsTable.tsx:91-97 | rows already in table order are shown as they come |
| PropsTable.NextSort | app/sports/nba/components/propsTable.tsx:100-107 | clicking the current column flips the direction; clicking another column selects it, descending |
| PropsTable.ClickSequences | app/sports/nba/components/propsTable.tsx:100-107 | two clicks on the current column restore the state; from another column, clicks go descending, ascending, descending |
| PropsTable.TableSort.constructor | app/sports/nba/components/propsTable.tsx:87-88 | the table opens sorted by over gap, descending |
| PropsTable.TableSort.HandleSort | app/sports/nba/components/propsTable.tsx:100-107 | a header click moves the sort state to `NextSort` of the old state |
| LiveBoard.Arrival | app/sports/nba/components/nbaOddsBoard.tsx:46-47 | a fixture's read delivers a snapshot iff the store is reachable and holds rows for it, and the snapshot delivered is the newest stored row, the one the latest read returns |
| LiveBoard.Arrivals | app/sports/nba/components/nbaOddsBoard.tsx:45-50 | one result per fixture read, in arrival order |
| LiveBoard.ArrivalsLastFound | app/sports/nba/components/nbaOddsBoard.tsx:45-50 | the snapshot merged for a fixture is its own latest if it was read, and none otherwise |
| LiveBoard.ArrivalOrderIrrelevant | app/sports/nba/components/nbaOddsBoard.tsx:45-50 | the map after the initial load depends only on which fixtures were read, not on arrival order |
| LiveBoard.LiveViewOf | app/sports/nba/components/nbaOddsBoard.tsx:90-101 | the waiting message shows iff there are no rows; otherwise the table gets every row |
| LiveBoard.EmptyMapWaits | app/sports/nba/components/nbaOddsBoard.tsx:90-99 | before any snapshot arrives there are no rows and the waiting message shows |
| LiveBoard.LiveOddsBoard.constructor | app/sports/nba/components/nbaOddsBoard.tsx:42 | the live board starts with an empty map |
| LiveBoard.LiveOddsBoard.Receive | app/sports/nba/components/nbaOddsBoard.tsx:47-49 | a read with a snapshot sets that fixture's key; one without leaves the map unchanged |
| LiveBoard.LiveOddsBoard.InitialLoad | app/sports/nba/components/nbaOddsBoard.tsx:44-51 | merging each fixture's read, in any arrival order, gives the map of merging them in fixture order |
| LiveBoard.LiveOddsBoard.Rows | app/sports/nba/components/nbaOddsBoard.tsx:64-88 | the live board builds the same rows as the odds board's flattening |
| HistoryCharts.Selected | app/sports/nba/components/gapChart.tsx:34-42 | never more samples than snapshots |
| HistoryCharts.SelectedMembers | app/sports/nba/components/gapChart.tsx:34-42 | a sample exists iff some snapshot holds exactly that prop at that time |
| HistoryCharts.SelectedConcat | app/sports/nba/components/gapChart.tsx:34-56 | samples follow snapshot order, snapshot by snapshot |
| HistoryCharts.SelectedCount | app/sports/nba/components/gapChart.tsx:40-42 | one sample per snapshot when all hold the prop; none when none does |
| HistoryCharts.SelectedChronological | app/sports/nba/components/gapChart.tsx:34-56 | a chronological history gives samples in time order |
| HistoryCharts.GapPoints | app/sports/nba/components/gapChart.tsx:44-55 | one point per sample at its time; a gap is positive iff FanDuel's no-vig exceeds SIA's on that side |
| HistoryCharts.BuildGapPoints | app/sports/nba/components/gapChart.tsx:32-56 | the loop builds one gap point per snapshot holding the prop, in order |
| HistoryCharts.GapChart.constructor | app/sports/nba/components/gapChart.tsx:23-25 | the chart starts with no data |
| HistoryCharts.GapChart.Load | app/sports/nba/components/gapChart.tsx:28-59 | the cached history's gap points replace the data; the cache and its read count become those of the get; a failed read leaves the data and the cache as they were |
| HistoryCharts.ColdGapChart | app/sports/nba/components/gapChart.tsx:29-63 | on a cold cache the chart shows the stored snapshots holding the prop, in time order, and renders iff at least two hold it |
| HistoryCharts.OddsPoints | app/sports/nba/components/oddsChart.tsx:52-61 | one point per sample; each book difference is that side's gap × 100 |
| HistoryCharts.ChartsAgree | app/sports/nba/components/oddsChart.tsx:57-60 | each odds-chart point's FanDuel − SIA difference is the gap-chart point at the same position |
| HistoryCharts.BuildOddsPoints | app/sports/nba/components/oddsChart.tsx:40-62 | the loop builds one chart point per snapshot holding the prop, in order |
| HistoryCharts.OddsChart.constructor | app/sports/nba/components/oddsChart.tsx:33 | the chart starts with no data |
| HistoryCharts.OddsChart.LoadData | app/sports/nba/components/oddsChart.tsx:36-65 | the cached history's chart points replace the data; the cache and its read count become those of the get; a failed read leaves the data and the cache as they were |
| HistoryCharts.PropNeverQuotedShowsNothing | app/sports/nba/components/oddsChart.tsx:70-76 | when no snapshot holds the prop, the odds chart shows its placeholder and the gap chart is hidden |

The model follows the code where the code and its documented intent differ:

- **Undirected filter and sort use different gaps.** With no side chosen, the filter
  tests the larger of the two gaps, but the sort orders by the over gap
  (`UndirectedFilterAndSortDiffer`).
- **The no-vig threshold counts without filtering.** With no side chosen, the threshold
  filters nothing out, yet the active-filter count includes it
  (`NoVigThresholdNeedsDirection`).
- **A filter change can set the window above the row count.** The reset sets the window
  to 12 even when fewer rows match. The rendered slice and the loader still behave
  (`ResetWindowMayExceedRows`).
- **Appending to an absent entry does not load the history.** After `addSnapshot` on a
  fixture the cache does not hold, the entry is just that snapshot. The next get returns
  it without loading the earlier history (`GetAfterAdd`).

## Left out

- **Database access** (lib/queries/odds.ts, lib/db.ts). The store is a value holding rows
  per fixture and a reachability flag. `ReadHistory` and `ReadLatest` model the two
  queries' results, not SQL.
- **The SSE transport and the update batch** (lib/useOddsSSE.ts). The batch of updated
  fixture ids is an input to `BoardState.Refresh`.
- **The live board's SSE refetch effect** (nbaOddsBoard.tsx:53-62). It passes the
  `number[]` batch where a single id is expected. It is not modelled as a single-id
  refetch.
- **Asynchrony.** This covers `Promise.all`, the interleaving of fetches with each other
  and with cache writes, and effect timing. Each fetch runs to completion in turn. The
  live board's arbitrary completion order is a parameter of `InitialLoad`.
- **Two caches.** The source has a server-side cache, used by the latest and history
  routes and the props page, and a separate one in each browser, used by the odds and gap
  charts, which run as client components. The model merges them into one `SnapshotCache`,
  so in the model a latest read's append is visible to the charts; in the source it is not.
- **HTTP and JSON.** `fetch`, `res.json`, `JSON.parse` of `odds_data` and
  `sessionStorage` are left out. Payloads are already decoded. Saved filters are an
  optional value.
- **Floating point.** Gaps and probabilities are exact reals. `toFixed` and `parseFloat`
  rounding are not modelled, so chart points are unrounded.
- **Times.** A snapshot's time is an integer. `Date` and `toLocaleTimeString` are not
  modelled.
- **Number inputs.** `parseFloat` is not modelled. `NumberInput` takes its result, with
  `None` for NaN.
- **Lower-casing.** `PropsTable.Lower` lower-cases ASCII letters only. `toLowerCase`'s
  Unicode case mapping is not modelled.
- **Toggle availability.** The sort-direction toggle is offered only while a sort column
  is chosen. `Apply` accepts it at any time, with the same effect.
- **StableSort.LexLess** compares strings by Unicode code point. JavaScript compares UTF-16
  code units, which orders characters above U+FFFF differently against U+E000 to U+FFFF.
- **BoardPipeline.LoadMoreReachesEnd** assumes every load-more signal arrives. In the
  source the observer effect (oddsBoard.tsx:242-254) re-runs only when `sorted.length`
  changes; a filter change that keeps the row count resets the window and mounts a new
  loader element the observer does not watch, so loading can stop.
- **Presentation.** Colours, layout, recharts, `IntersectionObserver` wiring and the
  filter sheet's open/closed state are not modelled. The pages, the navbar and the game
  strip are not part of this model.
- **Aliasing.** The cache hands out the same array it stores, and `addSnapshot` pushes
  onto it in place. The model passes histories as values, so a caller never sees a later
  append through an array it already holds.
- **OddsTypes.LookupFindsEntry** assumes distinct keys in a payload, as JSON objects
  have. With duplicate keys, the lookup returns the first entry.
