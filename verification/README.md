# A verified model of the Algorand indexing node

This project models how the node fetches blocks, compiles handler filters into a dictionary query,
and decides which handlers see which data, and proves what those parts promise. `dafny verify
dfyconfig.toml` checks all of it.

## The parts

**Fetching blocks.** A block does not carry its own hash, so the hash of round r is read off round
r + 1, which is looked for in the same batch or fetched ahead and cached. `FetchProtocol` is a step
system for any number of concurrent calls on one api object: one step per stretch between two
awaits, any request may fail, and the promises of a rejected call go on running. `FetchSafety` shows
that every step keeps the invariant, `FetchTheorems` states what holds over whole runs, and
`FetchConservation` follows the fetched blocks through every interleaving; `FetchTraces` bounds the
steps of a call and accounts for a call that runs alone, in whatever order its fetches arrive, and
`FetchBatches` for many in turn; `FetchRun` exhibits a run that returns and one that waits in vain.
`AlgorandApi` is the same code as a class that updates its cache and its block objects in place, for
one call run alone, against the account that `CacheAccounting` gives of it. `CacheTakes` is the
synchronous part they all share.

**Getting one block.** `Pagination` is the recursion over result pages. `BlockShape` compares the
two ways to a full block: a plain lookup, and a header completed with paginated transactions.
`CamelCase` and `Normalise` are the key rewrite both go through.

**Choosing data.** `Filters` is the evaluator of handler filters, `Projection` says what it reads in
terms of the raw transaction, `FilterTable` what each row of the mapping table means, `Dictionary`
compiles one filter, `Uniq` removes duplicate entries, `QueryEntries` compiles a project,
`IndexerManager` fires handlers, `FiringOrder` lists the firings by position, `Declared` restates
queries and firings over what a project declares, and `Skipping` proves that indexing only the
selected blocks changes nothing, and exactly when. `DynamicDs` narrows data sources created while
indexing, and `BlockSize` counts transactions.

`Values`, `Blocks`, `References` and `DataSources` hold what these share.

## What the code does that one might not expect

Each of these is proved, with the exact condition where there is one.

- The failure path of `getBlockHash` never yields a hash. It waits until the next round is reported
  and then throws all the same (`AlgorandApi.Api.GetBlockHash`). The spec at
  packages/node/src/indexer/api.service.spec.ts:78-93 expects such a call to end with the hash; the
  model follows the code. `FetchRun.AWaitIsInVain` is a run in which this happens.
- `combinePaginateBlock` works if and only if the header carries an empty `transactions` array
  (`BlockShape.PaginatedPathWorksIff`). The block it makes has an extra `toJson` function, because
  the header's `toJSON` is renamed by the second normalisation (`BlockShape.PaginatedHasToJson`).
- A header fetched on its own is never normalised, so `previousBlockHash` reads as undefined in it
  (`BlockShape.HeaderLosesParentHash`).
- Rewriting keys twice is the same as once if and only if no key has two adjacent one-letter
  segments after its first (`CamelCase.CamelTwice`, `Normalise.RewriteTwice`); `a-b-c` is such a key
  (`CamelCase.InitialsAreLost`).
- A page with transactions but without a next token restarts the pagination: it ends if and only if
  no such page is reached (`Pagination.EndsIffTokensAreGiven`, `Pagination.ForgetfulServerNeverEnds`).
- A transaction that a filter accepts is found by the compiled entry if and only if the filter's
  `txType` is not an empty value and the transaction's type is in the mapping table, or nothing but
  the type is asked for (`Dictionary.AcceptedIsFoundIff`; `Dictionary.UnmappedIsMissed` and
  `Dictionary.EmptyTypeIsMissed` are the two ways to fail). Such a transaction is all that can make a
  skipped block matter (`Skipping.SkippingIsInvisibleIff`, `Skipping.SkippedBlockCanFire`).
- An undefined member of a custom base filter list accepts everything but is dropped from the query.
  The list still covers the transactions of a type if and only if another filter in it asks for nothing
  but that type (`Dictionary.DroppedFilterIsCoveredIff`).
- A modulo of zero passes every block although it counts as defined (`Skipping.ModuloIsHonouredIff`).
- A filter throws if and only if its type passes and a list in it that finds no data is reached
  (`Filters.FilterThrowsIff`). Whether it is reached depends on the order of the properties
  (`Filters.ThrowingDependsOnOrder`), and a block that is skipped can hold the transaction it throws on
  (`Skipping.SkippedBlockCanThrow`).

## Model

| member | source | states |
|---|---|---|
| `FetchTheorems.CacheRefinesNoCache` | packages/node/src/algorand/api.algorand.ts:180-223 | Under every interleaving of any number of calls, with failures anywhere, a call that returns delivers, in order, the chain's block of each requested round with the hash the next round records, just as a fetch without a cache would. |
| `FetchTheorems.BlocksAreOwned` | packages/node/src/algorand/api.algorand.ts:187-207 | A block object in a batch is in no reachable state also in the cache, in another batch, twice in its own, or about to be pushed. |
| `FetchTheorems.CacheHoldsFreshFetches` | packages/node/src/algorand/api.algorand.ts:197-223 | In every reachable state each cached block is what a fresh fetch of its round gives, has no hash yet, and is held once. |
| `FetchTheorems.NoBlockIsLost` | packages/node/src/algorand/api.algorand.ts:181-223 | Every block object of a reachable state is cached, in a batch, or fetched and about to be cached. |
| `FetchTheorems.ReturnedAndCachedAreStable` | packages/node/src/algorand/api.algorand.ts:187-207 | A block still cached at a later state is unchanged; a block once returned never changes and is never cached again. |
| `FetchTheorems.RunExtends` | packages/node/src/algorand/api.algorand.ts:180-195 | Along a run block data never changes, a hash is written at most once, requested rounds stay as they were, and a returned call is final. |
| `FetchTheorems.RetryAgrees` | packages/node/src/algorand/api.algorand.ts:180-237 | A retry after any failures returns what the first call would have returned, and the requested rounds are untouched. |
| `FetchTheorems.HeadersLink` | packages/node/src/algorand/utils.algorand.ts:16-32 | In a returned batch each header has the height and time of its round and the block's own hash, and headers of adjacent rounds link parent to hash, wherever the hash came from. |
| `FetchTheorems.NeverStuck` | packages/node/src/algorand/api.algorand.ts:180-237 | In every reachable state an unfinished call has a step of its own to take. |
| `FetchTheorems.StepsUseUpWork` | packages/node/src/algorand/api.algorand.ts:180-237 | Every step lowers the remaining work of its own call and of no other, except a poll that finds the node still behind. |
| `FetchTheorems.PollingGoesOn` | packages/node/src/algorand/api.algorand.ts:230-235 | A poll that finds the node still behind is always possible and changes nothing, so without a further report the wait goes on for ever. |
| `FetchTraces.StepsAreBounded` | packages/node/src/algorand/api.algorand.ts:180-237 | However steps are interleaved, from any reachable state a call of n blocks takes at most 6n + 2 more steps, idle polls aside. |
| `FetchTraces.RunIsTrace` | packages/node/src/algorand/api.algorand.ts:180-237 | Every stretch of a run is a series of steps, of the kind that is counted and accounted for. |
| `FetchTraces.AloneAccounting` | packages/node/src/algorand/api.algorand.ts:180-223 | Whatever the order in which the fetches of a call that runs alone arrive, once it returns it has fetched, and left cached, each round exactly as often as the account says. |
| `FetchTraces.CanReturn` | packages/node/src/algorand/api.algorand.ts:180-223 | From every reachable state, a call that has not returned and has no failed promise has a series of its own steps that ends with it returned. |
| `FetchTraces.AnyCallCanReturn` | packages/node/src/algorand/api.algorand.ts:180-223 | In every reachable state, whatever other calls are doing, a call for any rounds can be made and can run alone until it returns. |
| `FetchTraces.RequestsAreOpen` | packages/node/src/algorand/api.algorand.ts:180-237 | Every request under way can be answered and can fail, also after its call was rejected; a failed block or health check rejects, a failed look-ahead turns to the health check. |
| `FetchRun.ACallReturns` | packages/node/src/algorand/api.algorand.ts:180-223 | For every chain and round there is a run in which a call for that round returns and leaves the next block cached. |
| `FetchRun.AWaitIsInVain` | packages/node/src/algorand/api.algorand.ts:224-237 | For every chain and round there is a run in which a call waits for the next round, sees it reported, and is rejected all the same. |
| `FetchSafety.StepKeepsInv` | packages/node/src/algorand/api.algorand.ts:180-237 | Every step keeps the invariant: each block object has exactly one reference, objects hold chain data and no wrong hash, a hash is set exactly on assigned blocks. |
| `FetchSafety.HashWriteIsPrivate` | packages/node/src/algorand/api.algorand.ts:187-190 | The object a hash is written to is neither cached, in flight, nor in another slot. |
| `FetchConservation.StepConserves` | packages/node/src/algorand/api.algorand.ts:180-237 | Under every interleaving the blocks of a round that are cached or on their way there change only by what a call takes, what a batch asks for ahead, and failed look-aheads, each counted exactly. |
| `FetchConservation.NothingUnderWay` | packages/node/src/algorand/api.algorand.ts:219-223 | When no look-ahead is under way, the conserved count is the cache content. |
| `FetchConservation.StepHolds` | packages/node/src/algorand/api.algorand.ts:180-237 | Under every interleaving, what is cached or held of a round grows by exactly what is fetched of it. |
| `CacheTakes.TakeConserves` | packages/node/src/algorand/api.algorand.ts:181-207 | The synchronous takes share any measure out between the cache and the batch: nothing is lost or copied. |
| `CacheTakes.TakenWereCached` | packages/node/src/algorand/api.algorand.ts:197-207 | A block taken has the round asked for and was cached, and the cache gains nothing. |
| `CacheTakes.TakeIsByRound` | packages/node/src/algorand/api.algorand.ts:197-207 | What is taken and what is missing depends on the cached rounds alone. |
| `CacheAccounting.TakeIsTakeRounds` | packages/node/src/algorand/api.algorand.ts:181-185 | The takes do to the cache, whatever stands for its blocks, what the account says of their rounds. |
| `FetchProtocol.TakeAllRefs` | packages/node/src/algorand/api.algorand.ts:181-207 | The takes move references from the cache to the batch and lose or copy none. |
| `FetchProtocol.TakeAllSlots` | packages/node/src/algorand/api.algorand.ts:181-207 | Each requested round gets a cached block of that round or waits for a fetch. |
| `CacheAccounting.ExactAccounting` | packages/node/src/algorand/api.algorand.ts:180-223 | For any cache and any batch with duplicates or gaps, each round is left cached, and fetched, exactly as often as the two counts and the look-ahead say. |
| `CacheAccounting.TakeCounts` | packages/node/src/algorand/api.algorand.ts:181-185 | Taking removes the smaller of the cached and the requested count. |
| `CacheAccounting.LookaheadCounts` | packages/node/src/algorand/api.algorand.ts:213-223 | A look-ahead is fetched once per request of a round unless the batch holds the next round. |
| `CacheAccounting.BatchAccount` | packages/node/src/algorand/api.algorand.ts:180-223 | A contiguous batch, with at most its first block cached, leaves just the block after it. |
| `CacheAccounting.AmortisedFetches` | packages/node/src/algorand/api.algorand.ts:180-223 | By the account: however a range [a, b) is cut into batches, rounds a to b are fetched once each and in order, and the cache is left with block b alone. |
| `FetchBatches.BatchesFetchOnce` | packages/node/src/algorand/api.algorand.ts:180-223 | Over the protocol: from an empty cache with nothing under way, batches that cover [a, b) and are fetched in turn leave just block b cached, and each round from a to b has been fetched once more and no other, in whatever order the fetches arrive. |
| `Blocks.LinkIsGenuine` | packages/node/src/algorand/api.algorand.ts:213-217 | A hash found in the batch is the true hash of the round. |
| `Blocks.FirstAtIsFirst` | packages/node/src/algorand/api.algorand.ts:197-207 | The cache search finds the first block of a round, and nothing only if there is none. |
| `AlgorandApi.Api.BlockInCache` | packages/node/src/algorand/api.algorand.ts:197-207 | Takes the first cached block of the round out of the cache, or changes nothing. |
| `AlgorandApi.Api.GetBlockByHeight` | packages/node/src/algorand/api.algorand.ts:66-81 | Gives a new object with the chain's block if and only if the lookup is answered, and otherwise the lookup's error. |
| `AlgorandApi.Api.GetBlockHash` | packages/node/src/algorand/api.algorand.ts:209-237 | Takes the hash from the batch without a request, or, if and only if the lookup is answered, from the fetched and cached next block; on failure never gives a hash, and throws as `GiveUp` says. |
| `AlgorandApi.Api.GiveUp` | packages/node/src/algorand/api.algorand.ts:224-236 | Which error follows from the health checks: the lookup error exactly when the first reports the next round, the missing hash when a later one is the first to report it, and the health check error when the last is not answered and none before reports it. |
| `AlgorandApi.Api.PollUntil` | packages/node/src/algorand/api.algorand.ts:230-235 | The polling loop ends at the first health check that fails or reports the next round, whether or not reports fall in between. |
| `AlgorandApi.Api.FetchBlocks` | packages/node/src/algorand/api.algorand.ts:180-195 | Returns if and only if every lookup of the account is answered. Then the result is the uncached fetch, in distinct objects that are no longer cached, and cache and lookups are those of the account. Otherwise the lookups stop at the first that is not answered, the earlier look-aheads are cached, and the error is that of this lookup or of the wait for its round. |
| `AlgorandApi.Api.TakeFromCache` | packages/node/src/algorand/api.algorand.ts:181-185 | All takes happen first, each round in turn getting its first cached block. |
| `AlgorandApi.Api.Gather` | packages/node/src/algorand/api.algorand.ts:181-185 | Requests the missing rounds in order up to the first that is not answered, and returns if and only if all are. |
| `AlgorandApi.Api.Link` | packages/node/src/algorand/api.algorand.ts:187-194 | Requests and caches the look-aheads in order up to the first that is not answered; if and only if all are, every block of the batch gets its true hash. |
| `AlgorandApi.PollsAreBounded` | packages/node/src/algorand/api.algorand.ts:224-236 | If all health checks are answered and every K reports advance by a round, the wait takes at most K polls per round the node is behind. |
| `Pagination.PaginationIsComplete` | packages/node/src/algorand/api.algorand.ts:93-127 | Against a server that serves everything in order, in pages that may differ from one request to the next, all n transactions are returned once and in order, in at most n + 1 requests. |
| `Pagination.RequestsWithFullPages` | packages/node/src/algorand/api.algorand.ts:93-127 | When every page but the last is full, there is one request per page and one more. |
| `Pagination.FullPagesIsCeiling` | packages/node/src/algorand/api.algorand.ts:98-101 | The number of full pages is the quotient by the limit, rounded up. |
| `Pagination.PagesAtTheLimit` | packages/node/src/algorand/api.algorand.ts:23 | At the node's limit the pages of n transactions are n over ten thousand, rounded up. |
| `Pagination.EndsIffAPageIsNotFull` | packages/node/src/algorand/api.algorand.ts:93-127 | Whatever the server does, and however it changes its mind, the recursion ends within n requests if and only if one of them fails or brings no transactions. |
| `Pagination.PaginationResult` | packages/node/src/algorand/api.algorand.ts:93-127 | Whatever the server does, all requests but the last bring transactions; if the last is answered the result is what the pages hold, one after the other, and otherwise it is that request's error. |
| `Pagination.MissingTokenNeverEnds` | packages/node/src/algorand/api.algorand.ts:103-121 | A page with transactions but no usable token makes the recursion endless. |
| `Pagination.EndsIffTokensAreGiven` | packages/node/src/algorand/api.algorand.ts:93-127 | Against a server that answers in order, but may fail or leave tokens out, the recursion ends if and only if every non-empty page it reaches carries a usable token. |
| `Pagination.ForgetfulServerNeverEnds` | packages/node/src/algorand/api.algorand.ts:103-121 | A server that answers in order without tokens keeps the recursion going for ever. |
| `BlockShape.PaginatedPathWorksIff` | packages/node/src/algorand/api.algorand.ts:129-167 | Completing a header with pages succeeds if and only if the header carries an empty `transactions` array. |
| `BlockShape.PathsAgree` | packages/node/src/algorand/api.algorand.ts:66-167 | The paginated and the direct block agree on every property but the extra `toJson`, and so on transactions and on every group. |
| `BlockShape.GroupIsFiltered` | packages/node/src/algorand/api.algorand.ts:147-150 | A block's group lookup is the filter of its own transactions by group. |
| `BlockShape.GroupIsPicked` | packages/node/src/algorand/api.algorand.ts:147-150 | A group lookup gives the block's transactions of that group, by position: all of them, no other, in the block's order. |
| `BlockShape.TransactionsAreKept` | packages/node/src/algorand/api.algorand.ts:66-167 | On either path the block has as many transactions as there were, and the i-th is the renamed i-th one, with a reference to the block and a `toJSON` of its own. |
| `BlockShape.BlockWithoutList` | packages/node/src/algorand/api.algorand.ts:155-164 | A block without transactions keeps none and has no groups, and one whose transactions are no list fails. |
| `BlockShape.PaginatedHasToJson` | packages/node/src/algorand/api.algorand.ts:131-139 | The paginated block has the header's `toJSON` under a second name. |
| `BlockShape.HeaderLosesParentHash` | packages/node/src/algorand/api.algorand.ts:83-91 | No name with a capital in it, such as `previousBlockHash`, is found in a header fetched on its own. |
| `BlockShape.TransactionWritesBack` | packages/node/src/algorand/api.algorand.ts:155-161 | Written out, a constructed transaction is the one it was made from. |
| `BlockShape.BlockWritesBack` | packages/node/src/algorand/api.algorand.ts:147-166 | Written out, a constructed block is the one it was made from, with its transactions mapped. |
| `BlockShape.ActualNamesFit` | packages/node/src/algorand/api.algorand.ts:147-161 | The real property names meet what the theorems about block shape ask of names. |
| `CamelCase.CamelHasInverse` | packages/node/src/algorand/utils.algorand.ts:38-44 | A kebab key can be read back from its camel-cased form. |
| `CamelCase.CamelIsInjective` | packages/node/src/algorand/utils.algorand.ts:38-44 | Distinct kebab keys never collide. |
| `CamelCase.CamelTwice` | packages/node/src/algorand/utils.algorand.ts:38-44 | Camel-casing twice is camel-casing once if and only if the key has no initials. |
| `CamelCase.InitialsAreLost` | packages/node/src/algorand/utils.algorand.ts:38-44 | Every key of three one-letter segments is a kebab key that a second camel-casing changes. |
| `CamelCase.DigitsStandApart` | packages/node/src/algorand/utils.algorand.ts:38-44 | Digits are kept as a word of their own, and letters after them begin another. |
| `Normalise.RewriteRenames` | packages/node/src/algorand/utils.algorand.ts:34-48 | On JSON with kebab keys the reduce-based rewrite renames each key in place: nothing is lost, reordered or overwritten. |
| `Normalise.RewriteCommutesWithLookup` | packages/node/src/algorand/utils.algorand.ts:34-48 | Looking up a camel-cased path after the rewrite gives the rewrite of what the raw path leads to. |
| `Normalise.RewriteTwice` | packages/node/src/algorand/utils.algorand.ts:34-48 | Rewriting a tree twice is rewriting it once if and only if no key in it has initials. |
| `Projection.MappedPathsAreRawPaths` | packages/node/src/algorand/utils.algorand.ts:55-83 | Every path of the mapping table is the camel-cased form of a kebab path. |
| `Projection.ProjectReadsRaw` | packages/node/src/algorand/utils.algorand.ts:138-147 | What a filter reads off a normalised transaction is the renamed property of the raw one. |
| `Filters.TxComparator` | packages/node/src/algorand/utils.algorand.ts:109-127 | The indexed loop computes the comparison, errors included. |
| `Filters.FilterTransaction` | packages/node/src/algorand/utils.algorand.ts:129-152 | The loop with early exit computes the filter's answer, errors included. |
| `FilterTable.Payments` | packages/node/src/algorand/utils.algorand.ts:56-59 | A payment filter for sender or receiver accepts exactly the payments whose own property has the value. |
| `FilterTable.KeyRegistrations` | packages/node/src/algorand/utils.algorand.ts:60-63 | The same for key registrations, by participation and sender. |
| `FilterTable.AssetConfigurations` | packages/node/src/algorand/utils.algorand.ts:64-67 | The same for asset configurations, by asset and sender. |
| `FilterTable.AssetTransfers` | packages/node/src/algorand/utils.algorand.ts:68-72 | The same for asset transfers, by asset, sender and receiver. |
| `FilterTable.AssetFreezes` | packages/node/src/algorand/utils.algorand.ts:73-77 | The same for asset freezes, by asset, new status, and address, which is the sender. |
| `FilterTable.ApplicationCalls` | packages/node/src/algorand/utils.algorand.ts:78-82 | The same for application calls, by application and sender. |
| `FilterTable.ApplicationArguments` | packages/node/src/algorand/utils.algorand.ts:78-82 | An argument pattern accepts the application calls whose arguments have its values position by position, null standing for any. |
| `FilterTable.OtherTypes` | packages/node/src/algorand/utils.algorand.ts:138-147 | A transaction of a type outside the table is accepted whatever else is asked for. |
| `FilterTable.OtherKeys` | packages/node/src/algorand/utils.algorand.ts:138-147 | A key without a row asks for a property called "undefined". |
| `Filters.BlockAcceptedIff` | packages/node/src/algorand/utils.algorand.ts:85-107 | A block filter accepts exactly the multiples of its modulo, if it has one other than zero, that are on schedule; no filter accepts every block. |
| `Filters.ComparesPositions` | packages/node/src/algorand/utils.algorand.ts:110-123 | A pattern fits data position by position, with null fitting anything. |
| `Filters.ComparesOtherData` | packages/node/src/algorand/utils.algorand.ts:110-123 | Against a string a pattern is compared character by character, and against other data that is no list, with undefined. |
| `Filters.CompareThrowsOnlyOnAbsentData` | packages/node/src/algorand/utils.algorand.ts:110-123 | Comparing a list throws if and only if the data is absent and the list is not empty. |
| `Filters.ChecksEveryField` | packages/node/src/algorand/utils.algorand.ts:138-151 | A filter's properties pass if and only if each passes on its own. |
| `Filters.AcceptanceIgnoresOrder` | packages/node/src/algorand/utils.algorand.ts:129-152 | The order of a filter's properties does not change what it accepts. |
| `Filters.FilterThrowsIff` | packages/node/src/algorand/utils.algorand.ts:129-152 | A filter throws if and only if its type passes, the type is mapped, and a non-empty list that finds no data comes after properties that all pass. |
| `Filters.ThrowingDependsOnOrder` | packages/node/src/algorand/utils.algorand.ts:138-151 | A payment makes a filter throw or answer false as the argument list comes before or after another property. |
| `Dictionary.CompileIsExact` | packages/node/src/indexer/dictionary/v1/algorandDictionaryV1.ts:92-107 | For a mapped type and a non-empty `txType`, a filter accepts a transaction if and only if its entry matches and the argument pattern fits. |
| `Dictionary.AcceptedIsFoundIff` | packages/node/src/indexer/dictionary/v1/algorandDictionaryV1.ts:92-107 | Exactly when an accepted transaction is found by the compiled entry, for a transaction with a type and no property called "undefined". |
| `Dictionary.UnmappedIsMissed` | packages/node/src/indexer/dictionary/v1/algorandDictionaryV1.ts:92-107 | A state proof is accepted by a filter for its sender and not found by its entry. |
| `Dictionary.EmptyTypeIsMissed` | packages/node/src/indexer/dictionary/v1/algorandDictionaryV1.ts:92-107 | A payment is accepted by a filter with an empty type and not found by its entry. |
| `Dictionary.DroppedFilterIsCoveredIff` | packages/node/src/indexer/dictionary/v1/algorandDictionaryV1.ts:80-107 | For any list: the entries of its defined filters find every transaction of a type if and only if one of them asks for nothing but that type, although an undefined member accepts them all. |
| `Uniq.SortBySorts` | packages/node/src/indexer/dictionary/v1/algorandDictionaryV1.ts:117-119 | The key's conditions are sorted by field and are the entry's own. |
| `Uniq.KeyIsCanonical` | packages/node/src/indexer/dictionary/v1/algorandDictionaryV1.ts:114-120 | Two keys are equal if and only if the entries ask for the same conditions. |
| `Uniq.UniqKeepsFirst` | packages/node/src/indexer/dictionary/v1/algorandDictionaryV1.ts:114-120 | Comparing sorted keys keeps exactly the first entry of each kind, in order. |
| `Uniq.KeptAreDistinct` | packages/node/src/indexer/dictionary/v1/algorandDictionaryV1.ts:114-120 | No two kept entries are permutations of each other. |
| `Uniq.KeptCover` | packages/node/src/indexer/dictionary/v1/algorandDictionaryV1.ts:114-120 | Every entry has a kept one that asks for the same. |
| `Uniq.UniqKeepsMeaning` | packages/node/src/indexer/dictionary/v1/algorandDictionaryV1.ts:114-120 | De-duplication finds the same transactions. |
| `QueryEntries.BuildDictionaryV1QueryEntries` | packages/node/src/indexer/dictionary/v1/algorandDictionaryV1.ts:61-121 | The nested loops with early returns compute the project's query: the first handler that throws or rules the dictionary out decides, otherwise all entries are collected in order and de-duplicated. |
| `Declared.QueryExistsIff` | packages/node/src/indexer/dictionary/v1/algorandDictionaryV1.ts:61-121 | There is a query if and only if every handler, by its own kind or that of its processor, is known and has a defined filter, Block filters with a modulo, and some handler sees transactions. |
| `Declared.EveryFilterIsAskedFor` | packages/node/src/indexer/dictionary/v1/algorandDictionaryV1.ts:92-107 | Every defined filter of every Transaction handler, be it the handler's own, its processor's, or any of its processor's list, has an entry that asks for just its properties. |
| `Declared.EveryEntryIsDeclared` | packages/node/src/indexer/dictionary/v1/algorandDictionaryV1.ts:92-107 | Every entry of the query comes from such a filter. |
| `QueryEntries.VisitHandler` | packages/node/src/indexer/dictionary/v1/algorandDictionaryV1.ts:68-111 | One round of the inner loop appends a handler's entries, ends the query, or throws. |
| `QueryEntries.CompiledHandlers` | packages/node/src/indexer/dictionary/v1/algorandDictionaryV1.ts:67-112 | In a compiled project every handler contributes all its entries, and every entry comes from a filter. |
| `QueryEntries.QueryFindsFilter` | packages/node/src/indexer/dictionary/v1/algorandDictionaryV1.ts:61-121 | A transaction that matches the entry of any filter is found by the de-duplicated query. |
| `QueryEntries.QueryNeedsFilters` | packages/node/src/indexer/dictionary/v1/algorandDictionaryV1.ts:80-90 | When there is a query, every handler of the project has a filter, and every Block handler's filters have a modulo. |
| `QueryEntries.LoneFilterQuery` | packages/node/src/indexer/dictionary/v1/algorandDictionaryV1.ts:61-121 | A project with a single Transaction handler compiles to the entry of its filter. |
| `QueryEntries.NoFilterNoQuery` | packages/node/src/indexer/dictionary/v1/algorandDictionaryV1.ts:80-82 | One handler without a filter makes the whole query empty. |
| `IndexerManager.Manager.IndexBlockData` | packages/node/src/indexer/indexer.manager.ts:94-104 | The effects are those of the block on every data source and then of each transaction, up to the first throw. |
| `IndexerManager.Manager.IndexContent` | packages/node/src/indexer/indexer.manager.ts:106-124 | One datum goes to the data sources in order, up to the first throw. |
| `IndexerManager.BlockFiresIff` | packages/node/src/indexer/indexer.manager.ts:94-147 | A block indexed to its end fires exactly the handlers whose filters pass, on the block and on its transactions, the block's own first. |
| `FiringOrder.BlockFiresInOrder` | packages/node/src/indexer/indexer.manager.ts:94-124 | By positions: the firings are those of exactly the places whose handlers pass, each once, the block first and then its transactions in order, on the data sources in order, on their handlers in order; a throw ends them before the data source it happens in. |
| `Declared.HandlerSees` | packages/node/src/indexer/indexer.manager.ts:129-147 | A handler sees data of its kind if and only if a filter declared for it accepts before one throws, and its plugin agrees; it throws if and only if one throws before any accepts. |
| `Skipping.SkippingIsInvisible` | packages/node/src/indexer/dictionary/v1/algorandDictionaryV1.ts:61-121 | Indexing just the selected blocks gives the same firings, in the same order, as indexing all of them, unless the first block that throws is skipped; in any case it fires at least what the full run does and throws only if that does. Asked of the project: Block filters with a modulo other than zero, Transaction filters as their type has them. Asked of each transaction: it has a type, and each filter whose type passes has a non-empty `txType` or none, and asks for nothing else unless the type is mapped; an undefined filter is covered by another of its list. |
| `Skipping.SkippingIsInvisibleIff` | packages/node/src/indexer/dictionary/v1/algorandDictionaryV1.ts:61-121 | For a runtime project that throws nowhere, skipping is invisible if and only if no skipped block holds a transaction that a filter accepts although its entry cannot reach it. |
| `Skipping.TypedFiltersCover` | packages/node/src/indexer/dictionary/v1/algorandDictionaryV1.ts:92-107 | When every Transaction filter names a mapped type, what is asked of transactions holds of all, whatever their own type. |
| `Skipping.SkippedBlockCanFire` | packages/node/src/indexer/dictionary/v1/algorandDictionaryV1.ts:92-107 | A project with one sender handler, and a block with one state proof, that is skipped and fires when indexed. |
| `Skipping.SkippedBlockCanThrow` | packages/node/src/indexer/dictionary/v1/algorandDictionaryV1.ts:61-121 | A project with one application handler, and a block with one payment, that is skipped and throws when indexed. |
| `Skipping.UnselectedBlockIsSilent` | packages/node/src/indexer/indexer.manager.ts:94-124 | A block with no matching transaction and no Block handler due fires nothing, if what `SkippingIsInvisible` asks of project and transactions holds. |
| `Skipping.UnselectedIsSilentIff` | packages/node/src/indexer/indexer.manager.ts:94-124 | In a runtime project, an unselected block that is indexed to its end is silent if and only if no filter accepts a transaction of it that its entry cannot reach. |
| `Skipping.FiringsAreSelected` | packages/node/src/indexer/dictionary/v1/algorandDictionaryV1.ts:67-90 | Every firing happens at a multiple of a Block handler's modulo or in a block with a matching transaction, if what `SkippingIsInvisible` asks of project and transactions holds. |
| `Skipping.ModuloIsHonouredIff` | packages/node/src/algorand/utils.algorand.ts:100-107 | A Block filter with a defined modulo is confined to its multiples if and only if the modulo is a number other than zero. |
| `Skipping.IndexingThrowsIff` | packages/node/src/indexer/indexer.manager.ts:94-147 | Indexing throws if and only if some block holds a transaction on which some Transaction handler has a filter that throws before any earlier one of its list accepts or throws. |
| `DynamicDs.DataSourceObject.UpdateDynamicDs` | packages/node/src/blockchain.service.ts:101-116 | A runtime data source has every filter narrowed in place, a custom one has its options merged, and nothing else changes, even if a handler is listed twice. |
| `DynamicDs.MergePrefersArgs` | packages/node/src/blockchain.service.ts:105-110 | Merged options have every key's value from the arguments, or failing that the old one. |
| `DynamicDs.NarrowKeepsTheRest` | packages/node/src/blockchain.service.ts:111-115 | Narrowing sets `txType` and keeps every other filter property, and every name, kind and processor. |
| `DynamicDs.NarrowedQuery` | packages/node/src/blockchain.service.ts:111-115 | The query of a narrowed data source asks for `appl` throughout, and it is non-empty if and only if there is a Transaction handler and every Block handler has a modulo. |
| `DynamicDs.NarrowedHandlerSees` | packages/node/src/blockchain.service.ts:111-115 | A narrowed handler sees exactly the `appl` transactions that its filter accepts without its old type. |
| `DynamicDs.NarrowTwice` | packages/node/src/blockchain.service.ts:111-115 | Narrowing twice is narrowing once. |
| `BlockSize.BlockSizeIsFlattened` | packages/node/src/indexer/types.ts:8-22 | The block size is the length of the flattened forest of inner transactions, and at least the number of top-level ones. |
| `BlockSize.FlattenAllIsClosed` | packages/node/src/indexer/types.ts:17-22 | The flattening holds every transaction at any depth. |
| `BlockSize.CountIsAdditive` | packages/node/src/indexer/types.ts:8-15 | Sizes add up over concatenation. |
| `BlockSize.SizeIsSum` | packages/node/src/indexer/types.ts:8-22 | A transaction counts one more than its inner list does in sum, and a block what its list does in sum. |

## Left out

- HTTP, the algosdk client, logging, connection pools, error wrapping and real delays: replaced by a fixed chain, a page server, a sequence of reported rounds, and requests that may fail; in `AlgorandApi` which requests fail is fixed by their number, and arbitrary.
- AlgorandApi.Api.FetchBlocks: takes the awaits of a call that runs alone in one fixed order and stops at the first failure, so the requests it still makes then are not counted; for every other order `FetchTraces.AloneAccounting` gives the same account, and what goes on after a failure is in `FetchProtocol`.
- AlgorandApi.Api.Link: starts the look-aheads one after another; started together they are in `FetchProtocol`.
- AlgorandApi.Api.GetBlockHash: asks that some later health check reports the next round if the batch does not hold it, since otherwise the wait in the code does not end; `FetchProtocol` has such nodes too.
- AlgorandApi.Api.GetBlockByHeight: gives the block as plain data; its JSON shape and the paginated fallback are in `BlockShape`, on values, where a transaction's reference to its block is a mark rather than a shared object.
- AlgorandApi.Api.GiveUp: asks the same of the node.
- AlgorandApi.Api.PollUntil: asks the same of the node; `FetchTheorems.PollingGoesOn` is the other case.
- Pagination.MissingTokenNeverEnds: asks that the server answers the same request the same way at any time; `Pagination.EndsIffAPageIsNotFull` asks nothing.
- Pagination.EndsIffTokensAreGiven: asks that the server answers the same request the same way at any time; without that a missing token can restart a pagination that ends later, with transactions repeated.
- Dictionary.CompileIsExact: takes filters as their type has them, where only `applicationArgs` is a list.
- The node framework's `indexData`, dictionary fetching, timestamp schedules and plugin filters are not part of this repository: `indexData` first selects the handlers of a data source that pass and then fires them in order, any filter of a list is enough, and the schedules and plugin filters are arbitrary predicates.
- What a dictionary does with an entry: a condition is taken to compare the field that the mapping table names.
- lodash `camelCase` outside ASCII, apostrophes, and its special words for ordinals such as `1ST`.
- `JSON.stringify` in the de-duplication key: the key is the entity with the sorted conditions, as data.
- Numbers other than integers, objects with index-like keys, transactions that are not objects, and inherited property names such as `constructor` in the mapping table.
- A `modulo` that is not a number: its type does not allow one.
- Writes to a returned block by the caller, and the garbage left by rejected calls.
- The data source objects of `DynamicDs` are snapshots for the rest of the model, which works on values.
- Chain interval, chain id checks, `SafeAPIService`, manifests, NestJS modules, subcommands and database cleaning: wiring or one-line wrappers.
