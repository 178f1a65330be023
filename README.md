# rxjs-searchlab search store, modelled in Dafny

This project models the signal-based `SearchStore` of the rxjs-searchlab demo and the
mock `SearchService.search` it is paired with.

The store holds the search term, the page, the filter mode, the loading flag, the error
message and the match total. From these it derives the page count and whether a
previous or next page exists. Its reactive pipeline trims the term, answers empty or
one-character terms with an empty page, drops repeats of the last `(term, page)` pair,
and starts a lookup with two retries. A lookup that still fails shows a fixed error
message and an empty page. A client-side filter then narrows the fetched items by the
filter mode: `all` keeps every item, while `title` and `description` keep only the items
whose title, or description, mentions "angular" or "rxjs". The mock lookup is a case-insensitive
substring filter over a fixed seven-item catalogue.

Files and modules:

- `seqs.dfy`, module `Seqs`: order-preserving filtering (`Array.prototype.filter`) and
  what it guarantees: membership, subsequence, idempotence, distinct keys.
- `text.dfy`, module `Text`: `toLowerCase`, `includes` and `trim` over ASCII.
- `search_service.dfy`, module `SearchService`: the catalogue and `Search`.
- `search_store.dfy`, module `SearchStore`: pagination, the pipeline's decisions as pure
  functions, the `results` filter, and class `Store`. In `Store` the setters and the
  pipeline steps are methods that update the store's fields in place.

The reactive pipeline is modelled as three explicit steps with time removed:

1. `Store.EmitParams`: an emission of `(searchQuery, page)`. It trims the term and runs
   the `tap` that clears the state when the term is empty.
2. `Store.Dispatch(p)`: the debounced pair `p` reaches `distinctUntilChanged` and the
   `switchMap` projection. A repeat is suppressed. Otherwise the lookup in flight is
   abandoned, which runs its `finalize` and clears `loading`. Then either the empty page
   is answered at once, or a lookup request `searchPaged(term, page, 3)` is started.
3. `Store.Settle(more)`: the lookup in flight receives the provider's answers to its
   next attempts. They are appended to the answers it already had, and `retry` judges
   that whole history, so a lookup gives up after its third failure however the answers
   are delivered. This covers `retry({count: 2})`, `catchError`, `finalize` and the
   map that copies `total`.

Three fields hold the operators' memory. `lastDispatched` is the pair
`distinctUntilChanged` last let through. `inFlight` is the lookup `switchMap` is
currently following. `history` holds the answers that lookup's attempts have had so far,
the count `retry` keeps inside the running subscription; the store's invariant says
they are all failures, fewer than three, and that a lookup in flight shows no error.
Five client methods, `ExhaustedLookupScenario`, `SplitAnswersScenario`,
`RecoveredLookupScenario`, `ClearedQueryScenario` and `AbandonedLookupScenario`, show
what a caller can prove from the step contracts alone.

In these details the model follows the code:

- An empty term does not clear the fetched items at once. The `tap` clears only `error`,
  `loading` and `total`; the items are emptied when the dispatch answers the empty page.
- A too-short term leaves `error` as it was. Only the empty term clears it.
- The store always uses `switchMap`. The other concurrency strategies are not
  selectable in it.

## Model

| member | source | states |
|---|---|---|
| Seqs.Filter | src/app/search/services/search.service.ts:42-46 | `filter` keeps exactly the elements satisfying the predicate, each as many times as it occurs in the input, and drops every other element; it never grows the sequence |
| Seqs.FilterIsSubsequence | src/app/search/services/search.service.ts:42-46 | the filtered sequence is a subsequence of the input, so input order is kept |
| Seqs.FilterIdempotent | src/app/search/search-page-signals/search.store.ts:173-185 | filtering twice by the same predicate equals filtering once |
| Text.Lower | src/app/search/services/search.service.ts:37 | `toLowerCase` keeps the length, leaves no upper-case letter and changes only upper-case letters, each by the ASCII case offset |
| Text.LowerIdempotent | src/app/search/services/search.service.ts:37 | lowercasing an already lowercased string changes nothing |
| Text.Contains | src/app/search/services/search.service.ts:44-45 | `includes` finds only a needle no longer than the text, and always finds the empty needle |
| Text.ContainsIffOccurs | src/app/search/services/search.service.ts:44-45 | `includes` holds exactly when the needle occurs at some index of the text |
| Text.ContainsEmpty | src/app/search/services/search.service.ts:44-45 | every string includes the empty string |
| Text.Trim | src/app/search/search-page-signals/search.store.ts:115 | `trim` yields the slice of the input that starts after its leading whitespace, with only whitespace outside it, and neither starts nor ends with whitespace |
| Text.TrimEmptyIffBlank | src/app/search/search-page-signals/search.store.ts:115-120 | the trimmed term is empty exactly when the input is all whitespace |
| SearchService.Matches | src/app/search/services/search.service.ts:44-45 | an item matches exactly when the needle occurs at some index of its lowercased title or of its lowercased description |
| SearchService.Search | src/app/search/services/search.service.ts:36-49 | soundness: every returned item's lowercased title or description contains the lowercased term; completeness: every catalogue item that matches is returned; at most 7 items |
| SearchService.MockIdsDistinct | src/app/search/services/search.service.ts:10-30 | the catalogue's ids are pairwise distinct |
| SearchService.SearchIsOrderedSubcatalogue | src/app/search/services/search.service.ts:39-47 | the result is an order-preserving subsequence of the catalogue with distinct ids |
| SearchService.SearchCaseInsensitive | src/app/search/services/search.service.ts:37 | searching a term and its lowercase form give the same result |
| SearchService.SearchEmptyTerm | src/app/search/services/search.service.ts:41-47 | the empty term returns the whole catalogue in order |
| SearchStore.TotalPages | src/app/search/search-page-signals/search.store.ts:24-35 | the page count is at least 1, is 1 for no matches, and otherwise is the least count of 3-item pages that holds the total |
| SearchStore.HasPrev | src/app/search/search-page-signals/search.store.ts:39 | a previous page exists exactly when going one page back still lands on page 1 or later |
| SearchStore.HasNext | src/app/search/search-page-signals/search.store.ts:40 | from page 1 or later, a next page exists exactly when matches lie beyond the current 3-item page, and the next page is then within the page count |
| SearchStore.Normalize | src/app/search/search-page-signals/search.store.ts:114-117 | the normalised pair keeps the page and carries the term with surrounding whitespace removed |
| SearchStore.SameParams | src/app/search/search-page-signals/search.store.ts:128 | two pairs count as a repeat exactly when they are equal in term and page |
| SearchStore.SkipsLookup | src/app/search/search-page-signals/search.store.ts:131-137 | no lookup is made exactly when the term is shorter than 2 characters, which includes the empty term |
| SearchStore.Retry | src/app/search/search-page-signals/search.store.ts:142-151 | at most retries+1 attempts; a success is the first answered attempt after failures only; exhaustion means retries+1 failures; still pending exactly when fewer answers than that are known and all failed |
| SearchStore.RetryUsesAtMostBudget | src/app/search/search-page-signals/search.store.ts:143-146 | answers after the first retries+1 never influence the outcome |
| SearchStore.RetryRecoversOnThirdAttempt | src/app/search/search-page-signals/search.store.ts:143-146 | two failures followed by an answer settle as that answer on the third attempt |
| SearchStore.RetryGivesUpAfterThreeFailures | src/app/search/search-page-signals/search.store.ts:143-151 | three failures exhaust the budget, whatever follows |
| SearchStore.MentionsTopic | src/app/search/search-page-signals/search.store.ts:176-184 | a text qualifies exactly when "angular" or "rxjs" occurs at some index of its lowercased form |
| SearchStore.Results | src/app/search/search-page-signals/search.store.ts:169-190 | the result filter adds nothing, never grows the list, and in mode `all` returns the fetched items unchanged |
| SearchStore.ResultsSpec | src/app/search/search-page-signals/search.store.ts:169-190 | `all` passes items through unchanged; `title`/`description` keep, in order and with their multiplicity, exactly the items whose lowercased title/description contains "angular" or "rxjs" |
| SearchStore.ResultsIdempotent | src/app/search/search-page-signals/search.store.ts:169-190 | applying the result filter twice equals applying it once |
| SearchStore.Store.constructor | src/app/search/search-page-signals/search.store.ts:20-37 | the store starts with an empty term, page 1, filter `all`, not loading, no error, total 0 and no items |
| SearchStore.Store.SetQuery | src/app/search/search-page-signals/search.store.ts:194-197 | sets the term and page 1 and leaves the filter and every other field unchanged |
| SearchStore.Store.NextPage | src/app/search/search-page-signals/search.store.ts:199-202 | moves one page on exactly when the page is below the page count, otherwise nothing changes; only the page may change, and a page within 1..page count stays there |
| SearchStore.Store.PrevPage | src/app/search/search-page-signals/search.store.ts:204-207 | moves one page back exactly when the page is above 1, so the page stays at least 1; only the page may change |
| SearchStore.Store.SetFilter | src/app/search/search-page-signals/search.store.ts:209-212 | sets the filter and page 1 and leaves the term and every other field unchanged |
| SearchStore.Store.EmitParams | src/app/search/search-page-signals/search.store.ts:114-125 | yields the trimmed pair; an empty trimmed term clears error, loading and total at once, and any other term changes nothing |
| SearchStore.Store.Dispatch | src/app/search/search-page-signals/search.store.ts:128-142 | a pair equal in term and page to the last one let through is suppressed with no change; an empty or too-short term yields the empty page with no lookup request and nothing in flight; any other term starts exactly the request (term, page, 3) with loading set, error cleared and an empty answer history |
| SearchStore.Store.Settle | src/app/search/search-page-signals/search.store.ts:142-161 | the lookup in flight is judged by `retry` on its whole history of answers, earlier calls included: success copies the result's items and total and leaves no error; exhaustion sets the fixed message, no items and total 0; loading is false and the history empty afterwards in both cases; a lookup still retrying keeps the longer history and nothing else changes; with no lookup in flight nothing changes |

## Left out

- Debouncing (`debounceTime(400)`) is timing. The caller decides which `EmitParams` result
  reaches `Dispatch`, as the last one emitted before a 400 ms quiet period would.
- The 500 ms delay between retries, the mock's `delay(600)` and `console.log` are timing
  or I/O, and are not modelled.
- `searchPaged` is not part of this model. Its answers to successive attempts are the
  `more` parameter of `Settle`, and the slicing rules of a paged lookup are not modelled.
- Scheduling by `combineLatest`, `toObservable` and `toSignal` is left out. A caller
  runs `EmitParams` after a setter. When `setQuery` changes both signals, `combineLatest`
  may emit twice: the new term with the old page, then the new term with page 1. The
  model runs `EmitParams` once, on the final pair. This loses nothing here because the
  `tap` reads only the term, which both emissions share, and the debounce passes on only
  the last pair.
- Subscription teardown, and the release of timers when the page is destroyed, are not
  modelled.
- The earlier pipeline that is commented out in the store file is not modelled.
- The FormControl-based search page component, the UI shell components and the routes
  are not part of this model. The page component repeats the store's trim and gate and
  only chooses between RxJS flattening operators.
- `toLowerCase` and `trim` are modelled over ASCII. Non-ASCII letters are left as they
  are, and only ASCII whitespace is trimmed. String length counts characters rather
  than UTF-16 code units; the two agree on ASCII.
- PagedResult.total is a natural number. A negative total from the lookup provider
  cannot be represented.
