# A verified model of stac-proxy

stac-proxy answers STAC searches by asking several upstream catalogues (origins), merging what
they return and handing the client one page at a time, with a signed cursor for the next page.
This project models, in Dafny 4.11, the parts of it whose correctness depends on more than one
function:

| files | what they model |
|---|---|
| `Items`, `Ordering`, `ListMerge`, `Merger` | items, origin links, dedup keys, the sort, merging of ordered lists |
| `Cursor`, `Pagination`, `PageLaws` | the federated cursor and one page of a search |
| `Sessions`, `Paging`, `Termination` | whole chains of pages, with fetches that fail |
| `Rankings`, `Duplicates`, `Repeats`, `Counterexamples` | sessions over origins that share items, exactly when a key is shown twice, and what fails without the hypotheses |
| `PageCache`, `CacheTransparency`, `Chains` | the search entry point, its page cache, and following next cursors |
| `Backoff`, `Breaker` | the circuit breaker under any interleaving, and its open periods in 64-bit arithmetic |
| `TokenBucket` | the shared rate limiter, over reals |
| `LogThrottle` | the lock-free log throttle under any interleaving |
| `Jwks` | the verification key cache under any interleaving |
| `Router` | the collection router against a scan |
| `Cql2`, `RequiredFilters` | the filter evaluator and the compiler of required filters |

`dafny verify dfyconfig.toml` checks everything. Every lemma carries `{:induction false}`, so each
proof is the one that is written.

## Main results

The session laws use these hypotheses on the origins:

- `Attributed`: no origin is named "", and no item names a foreign origin in its first origin link.
- `Catalog`: `Attributed`, and dedup keys are distinct across the whole federation.
- `Ordered`: every origin publishes in the page order. `Overlapping`: `Attributed`, every origin
  publishes strictly in the page order, and items with one key have the same datetime and id.
- A *session*: each fetch fails, or returns some of the next items and the position after them.
  `AmpleSession`: no fetch fails, and each returns a page full or all that is left.

The results:

- **Newest first** (`PageLaws.PageNewestFirst`, `PageLaws.PageBeforeStash`). On every page, and
  between a page and what is stashed after it, items go by descending datetime and then by
  ascending id; over whole ample sessions in `Paging.SessionNewestFirst` and
  `Duplicates.SharedNewestFirst`.
- **Paging refines sorting** (`Paging.PagingRefinesSorting`). Under `Catalog` and `Ordered`, the
  pages of an ample session are the stable sort of all origins' items cut into pages. Items may
  share their sort values: ties go to the smaller origin id.
- **Paging refines sorting for shared items** (`Duplicates.PagingSharedItems`). Under `Overlapping`,
  where origins may publish the same items, the pages of an ample session are the stable sort of
  the deduplicated union cut into pages, and no key is shown twice.
- **Exactly when a key is shown twice.** Under `Attributed`, with shared items and any failures, what
  a session has shown and stashed has distinct keys if and only if no page's fetches brought a key
  that had been shown before (`Repeats.KeysOnceIff`; `Repeats.EndedRepeatsIff` for what an ended session has
  shown). And no session over some origins shows a key twice if and only if their keys are distinct
  across the federation (`Repeats.NeverRepeatsIff`), so that part of `Catalog` cannot be weakened.
- **No loss, no repeat** (`Sessions.NoLossNoRepeat`). Under `Catalog`, whatever fetches fail and
  however few items a fetch returns, at every cursor of a session the items of an origin shown so
  far and its stash are exactly its list up to the saved position.
- **No key is lost** (`Duplicates.NoKeyLost`). Under `Attributed` alone, with shared items and any
  failures, the keys shown and stashed at every cursor are those of everything fetched.
- **Sessions end** (`Termination.SessionsEnd`, `Termination.CompleteSessionExists`). If every fetch
  returns an item or reports the end, a session has at most as many pages as there are published
  items, origins and pages on which some fetch failed; and every catalogue has a session that runs
  to its end.
- **Following next cursors gives the session** (`Chains.ChainIsSession`), in every field of every
  result, and with the page cache too (`Chains.CachedChainIsSession`). A cursor is accepted exactly
  when it is signed, not expired, and of the same principal and query (`PageCache.AnsweredIff`).
- **The cache is transparent** (`CacheTransparency.CacheTransparent`) over every history of searches,
  failures, evictions and expiries in which requests with one cursor agree on the fields the query
  hash leaves out.
- **Breaker accounting** (`Breaker.ReachableInv` and the lemmas after it), for every interleaving
  of admissions and replies, down to which errors and status codes open and close the circuit
  (`Breaker.OpensExactly`, `Breaker.GoodReplyCloses`).
- **Token bucket window bound** (`TokenBucket.WindowBound`), with clocks that may go backwards, and
  in the quota's own terms (`TokenBucket.QuotaBound`).
- **What the key cache replies** (`Jwks.RepliesByDocument`), after every interleaving, in terms of
  the documents fetched.
- **The fetch floor of the key cache** (`Jwks.FloorMetIff`, `Jwks.FloorWithoutOverlap`): exactly when
  it holds, and that it holds in full for calls that do not overlap.
- **Throttle conservation** (`LogThrottle.CallsConserved`), **key freshness**
  (`Jwks.ServedKeysAreFresh`), **index equals scan** (`Router.RouteIsScan`) and **compilation
  preserves meaning** (`RequiredFilters.CompiledMeans`).

## Findings

Where the code and its own documentation disagree, the model follows the code.

- A comment in `internal/federation/cursor.go` says that an origin is retired after three failures
  in a row so that a dead origin cannot keep a session going. `Clone` drops the error count, and
  every page that has a next one clones, so along a session the count is always 0 on entry.
  `Cursor.RetryBudget` proves the budget for one cursor object;
  `Sessions.EntersWithoutStrikes`, `Sessions.FailureKeepsSessionAlive` and
  `Sessions.DeadOriginNeverRetires` prove what happens along a session.
- Items left over from a page are stashed by the first origin link on the item. One whose first
  origin link names another origin, or nobody, can be lost: `Counterexamples.StrangersItemLost` is
  such a page. `PageLaws.NothingLostIff` gives the exact condition for a page,
  `PageLaws.NeverLostIff` the one on what goes in, and `Items.TagNamesOrigin` says when tagging
  ensures it.
- The dedup key joins collection and id with a colon. `Items.KeyCollides` shows two items with one
  key, and `Items.KeyCollision` says exactly which items share one.
- The guard against shift overflow in the breaker's `open` catches only results that are not
  positive. `Backoff.PeriodWrapsShort` is an input with a short period, `Backoff.AlwaysIdealIff`
  the exact condition on a configuration, and `Backoff.RoundBaseIdeal` and
  `Backoff.DefaultPeriods` show the defaults to be safe.
- `retry_ms` of the rate limiter is enough exactly for callers whose clock is not behind the
  bucket's time stamp (`TokenBucket.RetrySufficesIff`); `TokenBucket.RetryTooEarly` is a caller for
  whom it is not.
- The floor on key fetches for unknown ids does not hold for calls that overlap:
  `Jwks.OverlapBreaksFloor` is a run of a new client with two fetches and no time between them.
  `Jwks.FloorMetIff` says exactly when a caller's fetch keeps it.
- Items that several origins publish are deduplicated page by page, so a key can come back on a
  later page. There are two causes: an origin that repeats a (datetime, id), in
  `Counterexamples.KeyShownTwice`, a session of three pages without failures; and a fetch that fails,
  in `Counterexamples.FailureShowsTwice`, a session of two pages over strictly ordered lists.
  `Repeats.KeysOnceIff` and `Repeats.NeverRepeatsIff` are the exact conditions on a session and on
  the origins.
- A comment in the router says that discovery recomputes the implicit list. It does not, and
  `Router.ImplicitIsFilter` shows that it need not.
- The query hash does not cover the requested fields or the next link. `CacheTransparency.IndependentIff`
  says exactly when that matters.

## Model

| member | source | states |
|---|---|---|
| `Items.TagNamesOrigin` | internal/stac/extras.go:144-189 | A tagged item is filed under the origin it came from if and only if no foreign origin link stands first on it. |
| `Items.TagIdempotent` | internal/stac/extras.go:144-157 | Adding the same origin's link again changes nothing, whatever the URL. |
| `Items.TagKeepsOwn` | internal/stac/extras.go:144-157 | An item already filed under the origin is left as it is, so stashed items survive re-tagging. |
| `Items.TagKeepsKey` | internal/stac/extras.go:144-157 | Tagging does not change the dedup key or anything but the links. |
| `Items.TagAddsLink` | internal/stac/extras.go:144-157 | Tagging adds a last link with the origin's id and URL, unless a link of the item names that origin already. |
| `Items.OriginOfMeans` | internal/stac/extras.go:179-189 | The origin of an item is the title of its first origin link, and "" if it has none. |
| `Items.KeyCollision` | internal/federation/merger.go:47 | Two items share a dedup key if and only if they agree on collection and id or one collection continues the other past a colon that the ids make up for. |
| `Items.KeyCollides` | internal/federation/merger.go:47 | The items ("s2", "l2a:7") and ("s2:l2a", "7") have one key. |
| `Items.KeySeparates` | internal/federation/merger.go:47 | Without colons in collection names the key separates items. |
| `Items.OnlyCount` | internal/federation/pagination.go:663-670 | How often an item occurs among those filed under an origin is its count in the whole if it is filed there, else 0. |
| `Ordering.BeforeTotal` | internal/federation/pagination.go:643-649 | Items neither of which sorts before the other agree on datetime and id. |
| `Ordering.MayStandAhead` | internal/federation/pagination.go:643-649 | An item may stand ahead of another if and only if its datetime is greater, or equal with an id that is not greater. |
| `Text.LessMeans` | internal/federation/pagination.go:643-649 | Strings compare by their first difference, a proper prefix coming first. |
| `Ordering.StableSortInOrder` | internal/federation/pagination.go:643-649 | The sorted items are in order: no later item sorts before an earlier one. |
| `Ordering.StableSortStable` | internal/federation/pagination.go:643-649 | Items that tie keep their relative order. |
| `Ordering.StableSortUnique` | internal/federation/pagination.go:643-649 | Any arrangement that is in order and keeps ties in place is the sort, so the two laws describe it completely. |
| `Ordering.SelectFirst` | internal/federation/pagination.go:643-649 | The sort begins with the first item that nothing sorts before. |
| `Merger.MergeItemsFirstWins` | internal/federation/merger.go:38-59 | The nested loops compute the tagged items of all sources, in order, without those whose key came before. |
| `Merger.AddSource` | internal/federation/merger.go:43-57 | The inner loop extends the result and the seen keys by one source. |
| `Merger.DedupKeys` | internal/federation/merger.go:38-59 | The keys that are kept are exactly the keys that are not seen yet. |
| `Merger.DedupDistinct` | internal/federation/merger.go:38-59 | Kept items have pairwise distinct keys. |
| `Merger.DedupKeepsFirst` | internal/federation/merger.go:38-59 | An item is kept if and only if it is the first with its key. |
| `Merger.DedupIdentity` | internal/federation/merger.go:38-59 | With distinct keys nothing is dropped. |
| `ListMerge.MergeIsSort` | internal/federation/pagination.go:615-649 | Repeatedly taking the best head of ordered lists is the stable sort of the lists laid end to end. |
| `ListMerge.FrontSuffices` | internal/federation/pagination.go:334-349 | The first k steps of a merge do not look past the k-th item of any list: lists that are whole or at least k long merge alike. |
| `ListMerge.OnlyMerge` | internal/federation/pagination.go:663-670 | Picking one origin's items out of the merge gives its list back in order. |
| `Cursor.FederatedCursor.constructor` | internal/federation/cursor.go:180-202 | A new cursor has a fresh entry for every origin and has returned nothing. |
| `Cursor.FederatedCursor.MarkError` | internal/federation/cursor.go:362-367 | The failure step whose law over all outcome sequences is `Cursor.RetryBudget`: counted and flagged, nothing else moves, an unknown origin is ignored. |
| `Cursor.FederatedCursor.UpdateOriginState` | internal/federation/cursor.go:397-424 | The success step of that law and of `Sessions.PositionMoves`: counters and position advance, the error state clears, no next position marks the end. |
| `Cursor.FederatedCursor.HasMore` | internal/federation/cursor.go:317-330 | True if and only if some origin has a stash or is neither exhausted nor retired. |
| `Cursor.FederatedCursor.ActiveOrigins` | internal/federation/cursor.go:338-347 | Exactly the origins that have more, in increasing order. |
| `Cursor.FederatedCursor.Clone` | internal/federation/cursor.go:434-475 | The copy has the same positions, stashes, flags and totals, and error counts of 0. |
| `Cursor.RetryBudget` | internal/federation/cursor.go:302-319 | Over any sequence of failures and successes on one cursor, the error count is the number of failures since the last success, the item count what was returned in all, the position that of the last success; the origin is exhausted if and only if some success had no next position, retired if and only if the last three attempts failed, and its stash still counts as more. |
| `Cursor.StreakIsThree` | internal/federation/cursor.go:302-308 | Three or more trailing failures means that the last three outcomes are failures. |
| `Pagination.PaginatedSearcher.MergeResults` | internal/federation/pagination.go:599-705 | The page and the cursor state left by the five phases are those of the page function, whose order, provenance, conservation and cut the laws of `PageLaws` state. |
| `Pagination.PaginatedSearcher.MarkPhase` | internal/federation/pagination.go:602-609 | Errors are marked on the cursor and successful results indexed by origin. |
| `Pagination.PaginatedSearcher.Gather` | internal/federation/pagination.go:615-635 | Every active origin contributes its stash and then its fresh items, in origin order. |
| `Pagination.PaginatedSearcher.GroupByOrigin` | internal/federation/pagination.go:663-670 | The remainder is grouped by origin link, in order. |
| `Pagination.PaginatedSearcher.Settle` | internal/federation/pagination.go:675-702 | Positions of fetched origins advance and the stashes of active origins are overwritten. |
| `Pagination.PaginatedSearcher.RunPage` | internal/federation/pagination.go:317-369 | Fetch selection, fan-out and merge together are the page function, and the total grows by the page. |
| `Pagination.PaginatedSearcher.SelectFetches` | internal/federation/pagination.go:334-349 | Exactly the origins that are not exhausted, not retired and have less than a page stashed are fetched, each once. |
| `Pagination.PaginatedSearcher.FetchFromOrigins` | internal/federation/fanout.go:18-46 | One result for each requested origin, in the order of the requests; a missing answer is a failure. |
| `Pagination.ContributionsKeep` | internal/federation/pagination.go:615-635 | Leaving out the origins that are not active changes nothing. |
| `PageLaws.PageIsTheBest` | internal/federation/pagination.go:643-658 | The page has min(limit, merged) items, is in order, makes up the deduplicated items with the remainder, and nothing left over sorts before anything on it. |
| `PageLaws.PageNewestFirst` | internal/federation/pagination.go:643-649 | For every cursor, round and limit, of two items on a page the first has the greater datetime, or the same datetime and an id that is not greater. |
| `PageLaws.PageBeforeStash` | internal/federation/pagination.go:643-670 | The same holds between an item on a page and an item stashed after it. |
| `PageLaws.PageProvenance` | internal/federation/pagination.go:615-655 | Every item on a page was in some origin's stash or fetched from it, and differs at most by a last link with that origin's id and URL. |
| `PageLaws.AskedExactly` | internal/federation/pagination.go:334-349 | An origin is fetched if and only if it is known, not exhausted, has not failed three times since its last success, and has less than a page stashed. |
| `PageLaws.NothingLostIff` | internal/federation/pagination.go:651-702 | Page and stashes together hold all merged items if and only if every item left over names an active origin. |
| `PageLaws.NeverLostIff` | internal/federation/pagination.go:651-702 | Nothing is lost at any limit if and only if every item that dedup keeps of what is brought names an active origin. |
| `Counterexamples.StrangersItemLost` | internal/federation/pagination.go:663-702 | Two origins with one item each and a limit of 1: the second item, whose first origin link names a stranger, is neither shown nor stashed, and there is no next page. |
| `Counterexamples.StrangersItemExists` | internal/stac/extras.go:179-189 | Concrete origins and items of that kind. |
| `PageLaws.PageConservesKeys` | internal/federation/pagination.go:599-705 | With duplicates across origins, when no item brought names a foreign origin first: page and new stashes have pairwise distinct keys, their key set is that of the old stashes and fresh items, and they hold exactly the first occurrence of each. |
| `PageLaws.PageKeepsAll` | internal/federation/pagination.go:599-705 | When no item brought names a foreign origin first, page and new stashes are as a bag the deduplicated pool. |
| `PageLaws.OriginConserved` | internal/federation/pagination.go:599-705 | With distinct keys and no foreign first link, what an origin has on the page and in its stash is what it brought. |
| `PageLaws.StashWithin` | internal/federation/pagination.go:663-702 | When no item brought names a foreign origin first, a stash holds only its origin's items and no more than the origin brought. |
| `Sessions.OnePageSession` | internal/federation/pagination.go:277-455 | Sessions exist: an origin whose list fits on a page delivers it on the first, which has no next cursor. |
| `Sessions.PositionMoves` | internal/federation/cursor.go:397-424 | A fetch moves the saved position by what it returned; a failed or skipped one does not, and cloning keeps it. |
| `Sessions.NoLossNoRepeat` | internal/federation/pagination.go:599-705 | With attributed items and keys distinct across the federation (`Catalog`): at every cursor of every session, failures included, each origin's emitted and stashed items are as a bag its list up to the saved position. |
| `Sessions.NoKeyTwice` | internal/federation/pagination.go:599-705 | Under `Catalog`, no key is shown twice in a session, failures included. The distinct keys it asks for are necessary: see `Repeats.NeverRepeatsIff`. |
| `Sessions.EndedSessionIsComplete` | internal/federation/pagination.go:389-412 | Under `Catalog`, a session that has ended, failures included, has shown every published item exactly once. |
| `Sessions.StashBound` | internal/federation/pagination.go:334-349 | With upstreams that honour the limit and items that name no foreign origin first, every stash has at most 2·limit − 1 items at every cursor of a session, failures and duplicates included. |
| `Counterexamples.StashOutgrowsBound` | internal/federation/pagination.go:663-702 | A page of limit 1 over three origins, two of whose items name the first origin first, leaves two items in the first origin's stash. |
| `Sessions.EntersWithoutStrikes` | internal/federation/cursor.go:449-459 | Every cursor that enters a page has error count 0, so no origin of a session is ever retired. |
| `Sessions.MoreSurvivesClone` | internal/federation/pagination.go:389-412 | The cursor has more after a page if and only if its clone has. |
| `Sessions.FailureKeepsSessionAlive` | internal/federation/pagination.go:389-412 | A page on which some fetch failed always has a next cursor. |
| `Sessions.DeadOriginNeverRetires` | internal/federation/cursor.go:302-319 | An origin that fails on every page keeps a session going for any number of pages. |
| `Sessions.FieldsTell` | internal/federation/pagination.go:389-434 | Whatever is answered, along a session an origin's item count is what it has returned, its error flag says that its last fetch failed, and it is exhausted if and only if it has answered without a next position. |
| `Paging.BringsEnough` | internal/federation/pagination.go:334-349 | What an origin brings to a page is the front of what it has left, and all of it or at least a page full. |
| `Paging.CutStep` | internal/federation/pagination.go:643-702 | Sorting such contributions and cutting off a page gives the page, and leaves the stashes, that the merge of the full lists would. |
| `Paging.PageCutsMerge` | internal/federation/pagination.go:599-705 | Under `Catalog`, with ordered remainders and a round in which no fetch fails or falls short: the page is the front of the merge of everything that remains, and what remains after it is the rest, in order. |
| `Paging.PagingRefinesSorting` | internal/federation/pagination.go:599-705 | Under `Catalog` and `Ordered`, the pages of an ample session are the sorted union of all lists cut into pages; an ended one has shown all of it in order. |
| `Paging.SessionNewestFirst` | internal/federation/pagination.go:599-705 | Under `Catalog` and `Ordered`, everything an ample session shows, from the first page to the last, goes by descending datetime and then by ascending id. |
| `Rankings.UnionIs` | internal/federation/pagination.go:636-649 | For items whose copies tie, from strictly ordered lists laid in origin order: dedup and sort give the ranking, by sort values and then origin id, of the copy of each key from the smallest origin. |
| `Rankings.RankingUnique` | internal/federation/pagination.go:643-649 | A ranking is determined by its items. |
| `Rankings.FrontBeats` | internal/federation/pagination.go:334-349 | A list that holds a page full of keys before an item keeps that item behind the page. |
| `Duplicates.CutUnion` | internal/federation/pagination.go:599-705 | Dedup, sort and cut on fronts that are whole or a page long give the page, and leave the stashes, that the full lists would, copies counting once. |
| `Duplicates.PageCutsUnion` | internal/federation/pagination.go:599-705 | A page of an ample session over shared items is the front of the deduplicated union of everything that remains, and what remains is the rest. |
| `Duplicates.PagingSharedItems` | internal/federation/pagination.go:599-705 | Under `Overlapping`, the pages of an ample session are the sorted, deduplicated union cut into pages; an ended one has shown all of it; no key is shown twice. |
| `Duplicates.SharedNewestFirst` | internal/federation/pagination.go:599-705 | Under `Overlapping`, everything an ample session shows goes by descending datetime and then by ascending id. |
| `Duplicates.NoKeyLost` | internal/federation/pagination.go:599-705 | Under `Attributed`, with shared items and any failures: at every cursor of a session the keys shown and stashed are those of everything fetched. |
| `Duplicates.EndedShowsEveryKey` | internal/federation/pagination.go:389-412 | Under `Attributed`, an ended session has shown exactly the published keys, failures and shared items included. |
| `Counterexamples.KeyShownTwice` | internal/federation/merger.go:38-59 | An ample session of three pages over two weakly ordered origins shows one key on pages one and three. |
| `Counterexamples.FailureShowsTwice` | internal/federation/merger.go:38-59 | A session of two pages over two origins that publish one item, of which the second fails once, shows its key on both pages. |
| `Repeats.PageRepeatsIff` | internal/federation/pagination.go:599-705 | Given stashes with distinct keys, a page keeps the keys shown and stashed distinct if and only if they were and its fetches bring no key shown before. |
| `Repeats.KeysOnceIff` | internal/federation/merger.go:38-59 | Under `Attributed`, for every session, failures and shared items included: the keys shown and stashed are distinct if and only if no fetch brought a key shown before. |
| `Repeats.EndedRepeatsIff` | internal/federation/merger.go:38-59 | A session that has ended showed no key twice if and only if no fetch brought a key shown before. |
| `Repeats.ItemByItem` | internal/federation/pagination.go:389-412 | Under `Attributed` and a positive limit, some session shows every published item as it is, copies included. |
| `Repeats.NeverRepeatsIff` | internal/federation/merger.go:38-59 | Under `Attributed` and a positive limit, no session shows a key twice if and only if keys are distinct across the federation. |
| `Termination.PageDecreases` | internal/federation/cursor.go:317-330 | A page uses up at least its items from the measure (unfetched, stashed, unended), and without failures strictly some of it. |
| `Termination.SessionDecreases` | internal/federation/pagination.go:389-412 | Pages and items shown so far are paid for by the measure lost and the failing pages. |
| `Termination.MeasureAtStart` | internal/federation/cursor.go:180-202 | The measure starts as the number of published items and origins. |
| `Termination.SessionsEnd` | internal/federation/pagination.go:389-412 | If every fetch returns an item or reports the end, a session has at most published items + origins + failing pages many pages. |
| `Termination.FullRoundAnswers` | internal/federation/pagination.go:334-349 | At every cursor the origins can answer without failing or falling short. |
| `Termination.CompleteSessionExists` | internal/federation/pagination.go:389-412 | For every catalogue and positive limit there is an ample session that has ended. |
| `PageCache.PageStore.Get` | internal/federation/pagecache/pagecache.go:126-142 | The lookup that `PageCache.AnsweredAgain` and `CacheTransparency.HitIsCalmPage` are about: the entry under the key if it has not expired. |
| `PageCache.PageStore.Put` | internal/federation/pagecache/pagecache.go:147-165 | Stores for the configured time or the cursor's remaining life, whichever is less, and not at all when none remains. |
| `PageCache.SearchService.Search` | internal/federation/pagination.go:277-455 | Outcome and store are those of the cached search function, about which `PageCache.AnsweredIff`, `PageCache.RejectedFor`, `PageCache.LimitOf`, `PageCache.AnsweredAgain` and `Chains.ChainIsSession` are proved. |
| `PageCache.AnsweredIff` | internal/federation/pagination.go:290-299 | Whatever is cached and answered, a search gets a page if and only if it has no cursor, or a signed one whose expiry second is not past, of the same principal and the same query. |
| `PageCache.RejectedFor` | internal/federation/cursor.go:255-275 | Exactly when each rejection is given: not signed; else expired; else another principal; else another query. |
| `PageCache.LimitOf` | internal/federation/pagination.go:278-282 | Without a cached page, the limit is the one asked for if it is from 1 to the maximum and the page size otherwise, and no page is longer. |
| `PageCache.AnsweredAgain` | internal/federation/pagination.go:450-484 | If nothing is cached for a cursor, a later search with it gets the first answer again, whatever the origins answer then, if and only if the first search had active origins, no origin of it was failing, and neither the configured time nor the cursor's has passed. |
| `PageCache.SearchService.Execute` | internal/federation/pagination.go:317-434 | The rendered result: page, total, next cursor with its chain, statuses; an empty result when no origin is active. |
| `PageCache.SearchService.Report` | internal/federation/pagination.go:415-434 | The status of every origin, whose meaning along a session `Chains.StatusesAre` states. |
| `CacheTransparency.WellMeansCalm` | internal/federation/pagination.go:415-452 | A page whose statuses carry no error had no failed fetch. |
| `CacheTransparency.WellIsCalmPage` | internal/federation/pagination.go:450-452 | A page that may be stored is the page every origin up would give. |
| `CacheTransparency.HistoryHonest` | internal/federation/pagination.go:450-484 | After any history every stored page is failure-free, is its cursor's page, and expires no later than the cursor. |
| `CacheTransparency.CacheTransparent` | internal/federation/pagination.go:300-307 | After any history, a search while no origin fails has the same outcome with the cache as without, provided that requests with one cursor agree on the fields the query hash leaves out. |
| `CacheTransparency.HitIsCalmPage` | internal/federation/pagination.go:300-307 | A hit is the failure-free page even while origins fail, and comes before the cursor expires. |
| `CacheTransparency.IndependentIff` | internal/federation/pagination.go:725-758 | A cursor's page is the same for two requests with one query hash, for every upstream, if and only if they agree on what the hash leaves out or nothing is fetched. |
| `CacheTransparency.NextThenPrev` | internal/federation/pagination.go:389-412 | The next page's previous cursor leads back to the page it came from. |
| `Chains.ChainIsSession` | internal/federation/pagination.go:277-455 | A client that follows next cursors before they expire gets, in every field of every result, the page of the session: its items, the number of items shown so far, the statuses, the limit, the cursors of this page and of the one before, and a next cursor exactly while the session has more; fetches may fail. |
| `Chains.ChainShowsPages` | internal/federation/pagination.go:277-455 | The i-th result has the i-th page of the whole session, the number of items on the pages up to it, and the cursor of the result before as its previous one. |
| `Chains.StatusesAre` | internal/federation/pagination.go:415-434 | The statuses of a page say how many items each origin has returned so far, whether it has answered without a next position, and whether its last fetch failed. |
| `Chains.ChainRoundsAreSession` | internal/federation/pagination.go:277-455 | With honest origins the rounds of such a chain form a session, so the session laws are about it. |
| `Chains.ChainIgnoresCache` | internal/federation/pagination.go:300-307 | While no origin fails, the chain is the same whatever histories the page cache has seen. |
| `Chains.CachedChainIsSession` | internal/federation/pagination.go:277-455 | With the page cache, whatever histories it has seen, a client that follows next cursors while no origin fails gets the same results, in every field. |
| `Backoff.WithDefaults` | internal/httpx/breaker.go:35-52 | Fields that are not positive become 5 failures, 10 s, 2 min and 1 probe, the cap is raised to the base, and with durations of 63 bits the result is valid; a valid configuration is unchanged. |
| `Backoff.Period` | internal/httpx/breaker.go:210-214 | The period is positive and at most the cap, whatever the shift overflows to. |
| `Backoff.PeriodIdealIff` | internal/httpx/breaker.go:210-214 | After a number of reopens it is min(base·2^reopens, cap) if and only if the shift does not overflow into a positive value below the cap. |
| `Backoff.AlwaysIdealIff` | internal/httpx/breaker.go:210-214 | A configuration gives that period after any number of reopens if and only if each of the first 64 shifts fits. |
| `Backoff.PeriodWrapsShort` | internal/httpx/breaker.go:210-214 | A base of 2^33 + 1 after 31 reopens gives a period of 2^31 instead of the cap. |
| `Backoff.RoundBaseIdeal` | internal/httpx/breaker.go:210-214 | A base with enough trailing zero bits for its cap is exact after any number of reopens. |
| `Backoff.DefaultPeriods` | internal/httpx/breaker.go:35-52 | The defaults give 10 s, 20 s, 40 s, 80 s and 2 min from then on. |
| `Backoff.FullJitter` | internal/httpx/transport.go:107-113 | A positive delay is jittered to between its half, rounded down, and itself; others are unchanged. |
| `Backoff.JitterRange` | internal/httpx/transport.go:107-113 | The delays that can occur are exactly that interval, without its end when the delay is odd. |
| `Breaker.BreakerTransport.constructor` | internal/httpx/breaker.go:105-118 | A closed circuit with all counters 0 and a defaulted configuration. |
| `Breaker.BreakerTransport.TryAdmit` | internal/httpx/breaker.go:133-155 | Changes the fields as, and returns the generation that, the admission function says, about which the run laws below are proved. |
| `Breaker.BreakerTransport.RecordOutcome` | internal/httpx/breaker.go:163-206 | Changes the fields as the outcome function of the run laws says for this reply. What that means in terms of errors and status codes is `Breaker.OpensExactly`, `Breaker.ReopensExactly`, `Breaker.GoodReplyCloses` and `Breaker.CanceledFreesProbe`. |
| `Breaker.BreakerTransport.OpenCircuit` | internal/httpx/breaker.go:210-226 | Opens for the jittered period, clears the counters and starts a new generation. |
| `Breaker.RunKeepsInv` | internal/httpx/breaker.go:133-226 | Every interleaving keeps the in-flight accounting. |
| `Breaker.ReachableInv` | internal/httpx/breaker.go:133-226 | In every reachable state: half-open means that the probe count is the number of current requests in flight and within its limit; open means none is; closed means that the failure count is that of the trailing judged failures, below the threshold. |
| `Breaker.NoCurrentEndWhileOpen` | internal/httpx/breaker.go:191-194 | A failure of the current generation while open cannot happen. |
| `Breaker.HalfOpenNeverWedges` | internal/httpx/breaker.go:148-154 | A half-open circuit refuses a request if and only if all its probes are in flight. |
| `Breaker.AlwaysRecovers` | internal/httpx/breaker.go:133-206 | From every reachable state with no current request in flight and the open period over, one request answered without an error and below 500 closes the circuit and clears its counters. |
| `Breaker.OpenWindow` | internal/httpx/breaker.go:133-168 | Until the open time is up nothing is admitted and no recorded outcome changes any field. |
| `Breaker.GenerationsGrow` | internal/httpx/breaker.go:210-220 | Generations never go back. |
| `Breaker.StaleForEver` | internal/httpx/breaker.go:163-168 | The outcome of a request admitted before an opening changes nothing, however late it comes. |
| `Breaker.OpensExactly` | internal/httpx/breaker.go:172-186 | In every reachable state a closed circuit opens if and only if a current reply that was not cancelled makes the last `FailureThreshold` such replies of the generation each an error or a status of at least 500. |
| `Breaker.ReopensExactly` | internal/httpx/breaker.go:172-191 | A half-open circuit opens again if and only if a current reply that was not cancelled is an error or has a status of at least 500. |
| `Breaker.CanceledFreesProbe` | internal/httpx/breaker.go:172-177 | A cancelled request gives back its half-open probe and changes nothing else. |
| `Breaker.GoodReplyCloses` | internal/httpx/breaker.go:197-206 | A current reply without an error and below 500 closes the circuit and clears its counters, whatever its state. |
| `Breaker.AdmitsExactly` | internal/httpx/breaker.go:133-155 | In every reachable state: a closed circuit admits all; an open one nothing before its time and then a probe; a half-open one a probe if and only if fewer than `HalfOpenProbes` current requests are in flight. |
| `Breaker.OpenPeriods` | internal/httpx/breaker.go:187-217 | The n-th opening in a row lasts between half and all of the n-th period. |
| `Breaker.EveryPeriodOccurs` | internal/httpx/breaker.go:210-217 | And for every whole length from half the period up to it, but for an odd period itself, there is a draw that gives it. |
| `TokenBucket.SharedBucket.Call` | internal/middleware/ratelimit/redis.go:34-67 | The script's decision, stored bucket and expiry. |
| `TokenBucket.WaitIsLeast` | internal/middleware/ratelimit/redis.go:59 | The wait for an amount is the least number of milliseconds in which it is gained. |
| `TokenBucket.TokensInRange` | internal/middleware/ratelimit/redis.go:40-62 | Tokens stay between 0 and the burst in every run, with any clocks and any drops. |
| `TokenBucket.NothingAllowedIff` | internal/middleware/ratelimit/redis.go:54-60 | Nothing is ever allowed if and only if the burst is below the cost. |
| `TokenBucket.StampIsMaxClock` | internal/middleware/ratelimit/redis.go:47-50 | A live bucket's time stamp is the running maximum of the clocks. |
| `TokenBucket.TokensConserved` | internal/middleware/ratelimit/redis.go:40-62 | What is left and what was allowed is at most what there was and what was gained. |
| `TokenBucket.WindowBound` | internal/middleware/ratelimit/redis.go:40-62 | With a burst of at least 0, the calls of any stretch of a run on a live bucket consume at most the burst and what is gained between the time stamps of its first and last call, clocks going backwards included. |
| `TokenBucket.DropUnseenIff` | internal/middleware/ratelimit/redis.go:43-50 | A call cannot tell a dropped bucket from a kept one if and only if the kept one would be full and not ahead of the clock. |
| `TokenBucket.IdleIsFull` | internal/middleware/ratelimit/redis.go:63-64 | After its idle time a bucket would be full. |
| `TokenBucket.TtlIsTwiceFilling` | internal/middleware/ratelimit/redis.go:63-64 | The idle time is twice the least number of milliseconds in which an empty bucket fills. |
| `TokenBucket.ExpiryUnseen` | internal/middleware/ratelimit/redis.go:63-64 | With one clock, every call of a run is decided as if no idle bucket were ever dropped. |
| `TokenBucket.WindowBoundWithExpiry` | internal/middleware/ratelimit/redis.go:40-64 | The window bound for runs in which idle buckets are dropped. |
| `TokenBucket.AllowedExactlyFrom` | internal/middleware/ratelimit/redis.go:54-60 | After a refused call the next one is allowed if and only if the burst covers the cost and the wait has passed since the bucket's time stamp. |
| `TokenBucket.RetrySufficesIff` | internal/middleware/ratelimit/redis.go:54-60 | When the burst covers the cost, waiting `retry_ms` is enough if and only if the refused caller's clock was not behind the bucket's. |
| `TokenBucket.RetryTooEarly` | internal/middleware/ratelimit/redis.go:54-60 | A caller a second behind is refused, told to wait a second, and refused again. |
| `TokenBucket.ResetIsWhenFull` | internal/middleware/ratelimit/limiter.go:119-131 | The reported reset time is right to the second: left alone, the bucket is not full a millisecond before it and is full a second after it. |
| `TokenBucket.FullResetsNow` | internal/middleware/ratelimit/limiter.go:119-131 | For a full bucket the reported reset time is the current second. |
| `TokenBucket.RedisLimiter.Allow` | internal/middleware/ratelimit/redis.go:107-162 | A degenerate quota is refused without a call; a failed call is reported as unavailable, with the bucket as it was or as the script left it; otherwise the script decides on the bucket that the earlier calls of this key and quota alone have left, with remaining tokens, reset time, and for a refused caller the whole seconds, at least one, that cover `retry_ms`. The call is entered in the history that `TokenBucket.QuotaBound` is about. |
| `TokenBucket.QuotaBound` | internal/middleware/ratelimit/redis.go:107-128 | Of any stretch of calls on one key and quota whose millisecond clocks lie within one window, failed calls included, at most `requests` plus the burst are allowed; a burst of 0 counts as `requests`, and a negative one allows none. |
| `TokenBucket.ClocksWithinWindow` | internal/middleware/ratelimit/redis.go:117-125 | For windows of whole milliseconds it is enough that the nanosecond clocks lie within one window. |
| `TokenBucket.RefillsByTheWindow` | internal/middleware/ratelimit/redis.go:113-117 | A call finds the burst if there is no bucket, and otherwise what was left plus `requests` for each window passed, up to the burst; a clock that is behind adds nothing. |
| `TokenBucket.EmptiedRefills` | internal/middleware/ratelimit/redis.go:113-117 | With a burst of at least 0, an emptied bucket left alone for one window holds the lesser of the burst and `requests`. |
| `LogThrottle.IntervalOf` | internal/logx/throttle.go:23-28 | The interval is positive: the requested one if that is, and 30 s otherwise. |
| `LogThrottle.Throttle.Warn` | internal/logx/throttle.go:34-46 | A call on its own logs and resets the counter, or counts. |
| `LogThrottle.AloneIsWarn` | internal/logx/throttle.go:34-46 | The four steps of an uninterrupted call do what the call on its own does. |
| `LogThrottle.RunKeepsInv` | internal/logx/throttle.go:34-46 | Every interleaving keeps the deadline, the spacing and the count of calls. |
| `LogThrottle.LinesApart` | internal/logx/throttle.go:34-46 | The i-th and the j-th winner are at least j − i intervals apart in time. |
| `LogThrottle.CallsConserved` | internal/logx/throttle.go:34-46 | Finished calls = lines + counts reported on them + the counter; when all have finished every winner has logged. |
| `LogThrottle.LineReports` | internal/logx/throttle.go:40-46 | In every interleaving each line reports the number of calls that gave up since the line before. |
| `LogThrottle.LosesOnlyToWinner` | internal/logx/throttle.go:40 | A caller whose time has come fails to swap if and only if another has won since it loaded the deadline. |
| `Jwks.WithDefaults` | internal/middleware/auth/jwks.go:212-230 | Fields that are not positive become 1 h, 24 h, 30 s and 60 s; the hard limit is raised to the soft one; a valid configuration is unchanged. |
| `Jwks.JwksClient.Compile` | internal/middleware/auth/jwks.go:431-460 | The loop computes the compiled keys of the document. |
| `Jwks.CompiledHas` | internal/middleware/auth/jwks.go:431-460 | A key id is compiled if and only if some entry with it parses and has use "sig" or none, and to the last such entry. |
| `Jwks.JwksClient.TryLookup` | internal/middleware/auth/jwks.go:328-343 | The lookup that `Jwks.ServedKeysAreFresh` and `Jwks.PublishedKeysAreServed` are about. |
| `Jwks.JwksClient.Refresh` | internal/middleware/auth/jwks.go:403-473 | The attempt is recorded in any case; a success replaces the keys and clears the negative answers. |
| `Jwks.JwksClient.KeyWithAlg` | internal/middleware/auth/jwks.go:297-315 | A call on its own changes the cache and replies as the call function says. `Jwks.RepliesByDocument` states the reply, `Jwks.SoloCall` the cache, and `Jwks.StaleByDocument` when a background refresh is started. |
| `Jwks.RepliesByDocument` | internal/middleware/auth/jwks.go:297-315 | After every run, with a valid configuration: the reply is the key and algorithm of the last document's governing entry if it has one and is at most the hard limit old; otherwise, if the key id was not found missing within the negative time and the last fetch is at least the minimum interval ago, that of the newly fetched document's governing entry, or the fetch's failure; in all other cases the key is not present. |
| `Jwks.StaleByDocument` | internal/middleware/auth/jwks.go:328-343 | After every run an answer is stale if and only if the last document has the key and its age is past the soft limit and not past the hard one. |
| `Jwks.SoloCall` | internal/middleware/auth/jwks.go:297-315 | The six steps of a call that no other overlaps leave the cache that the call as a whole leaves. |
| `Jwks.OneFetchAtATime` | internal/middleware/auth/jwks.go:403-411 | In every interleaving the fetches started are those ended and at most one in flight. |
| `Jwks.NegativeAnswerHolds` | internal/middleware/auth/jwks.go:381-398 | A key id that a fetch did not bring is refused, with no fetch and no change, until its negative answer expires. |
| `Jwks.RunKeepsCache` | internal/middleware/auth/jwks.go:403-473 | In every interleaving the cache holds exactly the last fetched document and its expiry times. |
| `Jwks.ServedKeysAreFresh` | internal/middleware/auth/jwks.go:297-343 | In every interleaving a served key is that of the last usable entry of the last document fetched, at most the hard limit ago, and stale if and only if the soft limit has passed. |
| `Jwks.PublishedKeysAreServed` | internal/middleware/auth/jwks.go:328-343 | A usable key of the last document is served until the hard limit. |
| `Jwks.RunKeepsFloor` | internal/middleware/auth/jwks.go:381-411 | Every interleaving keeps the floor's bookkeeping. |
| `Jwks.RefreshFloor` | internal/middleware/auth/jwks.go:381-411 | In every interleaving a fetch for an unknown key id comes at least the minimum interval after every fetch started before its caller checked. |
| `Jwks.FloorMetIff` | internal/middleware/auth/jwks.go:381-411 | In every interleaving, for a caller that has checked, the fetch it would start now is the minimum interval after all earlier ones if and only if none was started since its check, or the last one was long enough ago. |
| `Jwks.FloorWithoutOverlap` | internal/middleware/auth/jwks.go:381-411 | In runs in which no fetch starts between another call's check and its fetch, every fetch for an unknown key id comes at least the minimum interval after every earlier fetch. |
| `Jwks.OverlapPassesFloor` | internal/middleware/auth/jwks.go:304-309 | Of two callers that have both checked, the second fetches as soon as the first's fetch has ended. |
| `Jwks.OverlapBreaksFloor` | internal/middleware/auth/jwks.go:297-309 | A run of a new client with two callers, whose two fetches start with no time between them. |
| `Router.CollectionRouter.Register` | internal/federation/router.go:34-53 | The table becomes the one of the registration function, about which the run laws below are proved: listed if searchable or with collections, mapped under its prefix, implicit list recomputed. |
| `Router.CollectionRouter.RecomputeImplicit` | internal/federation/router.go:59-70 | The implicit list is the filter of all origins. |
| `Router.CollectionRouter.UpdateFromDiscovery` | internal/federation/router.go:143-180 | The table becomes the one of the discovery function of those laws: the first origin with the id has its mappings replaced; unknown ids are ignored. |
| `Router.CollectionRouter.RemoveMappings` | internal/federation/router.go:160-172 | Removes one origin's mappings and the collections left empty. |
| `Router.CollectionRouter.Route` | internal/federation/router.go:73-125 | With collections: serving origins only, one for each id that serves. Without: the enabled searchable origins. |
| `Router.CollectionRouter.Choose` | internal/federation/router.go:98-117 | One inner loop: every enabled, not excluding origin of the list is collected under its id. |
| `Router.ImplicitIsFilter` | internal/federation/router.go:59-70 | After any run the router lists the registered origins that are searchable or have collections, and the implicit list is the filter of these, though discovery does not recompute it. |
| `Router.MappingMeans` | internal/federation/router.go:34-53 | After any run with distinct ids, an origin is mapped to a collection if and only if it is listed and the collection is among those it last declared or discovered, under its prefix. |
| `Router.RouteIsScan` | internal/federation/router.go:73-125 | A query with collections returns exactly the origins a scan of all finds, each once. |
| `Router.RouteAllMeans` | internal/federation/router.go:78-86 | A query without collections returns exactly the enabled searchable origins, each once. |
| `Router.RouteAllOrdered` | internal/federation/router.go:78-86 | They come in order of registration. |
| `Router.DiscoveryKeepsOthers` | internal/federation/router.go:143-180 | Discovery leaves every other origin's mappings as they are, in order. |
| `Cql2.BareNameIsPath` | internal/stac/cql2_eval.go:271-292 | A bare property name finds what its path under "properties" finds. |
| `Cql2.BareNameMeans` | internal/stac/cql2_eval.go:271-281 | A bare name is what it is under "properties" if it is there, else what it is at the top level, else null. |
| `Cql2.DottedNameMeans` | internal/stac/cql2_eval.go:271-292 | A dotted name is looked up part by part from the top level; a missing part, or one in something that is no object, makes it null. |
| `Cql2.NeqNegatesIff` | internal/stac/cql2_eval.go:298-336 | Inequality negates equality if and only if the values are comparable; otherwise both are false. |
| `Cql2.ComparisonsAgree` | internal/stac/cql2_eval.go:298-372 | Of less, equal and greater exactly one holds of ordered values, and the other operators follow from them. |
| `Cql2.NumbersCompare` | internal/stac/cql2_eval.go:313-354 | Values that both read as numbers compare by each operator as these numbers do. |
| `Cql2.StringsCompare` | internal/stac/cql2_eval.go:319-372 | Strings that do not both read as numbers compare by each operator in string order. |
| `Cql2.OthersCompare` | internal/stac/cql2_eval.go:298-336 | Of values without an order, null equals null alone, booleans are equal or not, and nothing else compares. |
| `Cql2.OrderedMeans` | internal/stac/cql2_eval.go:313-323 | Values have an order if and only if both read as numbers or both are strings. |
| `Cql2.Among` | internal/stac/cql2_eval.go:155-164 | Membership holds if and only if some element compares equal. |
| `Cql2.JunctionsMean` | internal/stac/cql2_eval.go:83-112 | A conjunction is as its first conjunct that is not true and a disjunction as its first that is not false, faults included. |
| `Cql2.NotMeans` | internal/stac/cql2_eval.go:113-125 | A negation needs one argument, turns true and false about and keeps a fault. |
| `Cql2.ComparisonMeans` | internal/stac/cql2_eval.go:126-138 | A comparison needs two arguments, has the first fault of them, and is otherwise the comparison of their values. |
| `Cql2.MembershipMeans` | internal/stac/cql2_eval.go:139-164 | Membership needs two arguments, the second an array, and is true if and only if some element compares equal. |
| `Cql2.IsNullMeans` | internal/stac/cql2_eval.go:165-173 | A null check needs one argument and is true if and only if its value is null. |
| `Cql2.ArrayMeans` | internal/stac/cql2_eval.go:65-74 | An array has the values of its elements, or the first fault of them. |
| `Cql2.AndTrueIff` | internal/stac/cql2_eval.go:83-97 | A conjunction is true if and only if every conjunct is. |
| `RequiredFilters.LiteralMeans` | internal/stac/cql2_eval.go:50-79 | A literal without objects evaluates to its value; one with an object cannot be evaluated. |
| `RequiredFilters.ClauseIff` | internal/middleware/authz/required_filters.go:65-114 | A clause is built if and only if the value is no object, or an object of one known operator with an array for `in`; otherwise the reason is the number of operators, the missing array or the unknown operator. |
| `RequiredFilters.ClauseMeans` | internal/middleware/authz/required_filters.go:65-114 | If what is compared with holds no object, the clause evaluates without a fault and is true if and only if the item's value is to the filter's as the operator's name says. |
| `RequiredFilters.RequiredFiltersToCql2` | internal/middleware/authz/required_filters.go:34-63 | The loops compute the compiled filters, in sorted key order. |
| `RequiredFilters.CompilesIff` | internal/middleware/authz/required_filters.go:34-63 | Filters are rejected if and only if one is malformed, for the least such key and with its reason, and give no expression if and only if there are none. |
| `RequiredFilters.CompiledMeans` | internal/middleware/authz/required_filters.go:34-63 | The compiled expression evaluates without a fault and is true of an item if and only if the item meets every key's filter. |
| `RequiredFilters.AndNonNil` | internal/middleware/authz/cql2.go:18-35 | The loop computes the conjunction of the present expressions. |
| `RequiredFilters.AndNonNilMeans` | internal/middleware/authz/cql2.go:18-35 | It is absent if and only if all are, and passes an item if and only if every part does, whatever faults they have. |
| `RequiredFilters.MergedFilterMeans` | internal/middleware/authz/cql2.go:18-35 | User, policy and required filters merged pass exactly the items that all of them pass. |

## Left out

- HTTP serving, proxying, link rewriting, health checks, configuration, CORS, middleware wiring: input and output without deep invariants.
- HMAC, SHA-256, base64 and JSON: treated as injective; a token is its cursor state, a query hash the hashed fields, a cache key the state and the principal.
- Page adapters and URL allow-lists: an origin's saved token, URL or body is a position in its list.
- Null items and null links: every item is present. (The code dereferences a null item in some places.)
- Kinds of fetch errors in statuses, the last sort value, offsets and adapter names of origin cursors: they decide nothing that is modelled.
- First-page links: empty along the whole chain as written.
- Goroutines of the fan-out: a round maps each requested origin to its result. Panics are not modelled.
- Sort keys are compared as strings, as the code does; instants and time zones are not modelled.
- Overflow of time stamps and wrap-around of the breaker's 64-bit generation counter.
- Redis itself: a store with expiry; numbers are not rounded on their way through it.
- TokenBucket.ExpiryUnseen: assumes one clock that does not go back, as the expiry runs on the server's clock and the refill on the callers'.
- Sessions.NoKeyTwice: assumes keys distinct across the federation, because without that some session shows a key twice (`Repeats.NeverRepeatsIff`).
- Breaker.OpenPeriods: the jitter's random draw is any number in its range; no distribution is modelled.
- The flag that keeps background key refreshes to one at a time: the model allows background refreshes at any moment, which includes the code's behaviour.
- Router.RouteIsScan: origins are values with distinct ids; changing an origin's fields after registration is not modelled.
- Spatial operators, geofences and the text and JSON forms of filters: foreign libraries. What the filter library makes of an object literal is taken to be a node the evaluator rejects.
- NaN and rounding in comparisons: numbers are reals, and which strings read as numbers is a parameter.
