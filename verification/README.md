# A paged, sharing, evicting KV store and the decoders on top of it

This project models the memory core of an LLM serving engine and proves that none of its
optimisations can be observed in the tokens a client receives.

* **Blocks and tables** (`Ownership`, `Allocator`, `Paging`, `Arena`): the refcounted block
  allocator, the per-request block tables, and the older first-fit arena.
* **The prefix cache** (`PrefixForest`, `Prefix`, `Reclaim`): a radix forest of complete blocks
  plus exact whole-prompt entries, both co-owning blocks with running requests, evicted least
  recently used first.
* **The store** (`Store`): allocator ledger, tables, cache catalogue and page pool together. A
  cached vector is the free term `Cell(past, token)` of everything before it, so "the page holds
  the K/V of these tokens" is exact and holds for every function a model may use to compute K/V.
* **Prospects of a request** (`Prospects`, `Alone`, `Starved`, `Lone`): when a request can get room,
  as a condition on the store, what keeps that condition, and two families of states in which a
  lone request cannot. `Lone` is the whole run of an engine into one of them.
* **The serving engine** (`Lifecycle`, `Arrival`, `Yielding`, `Batching`, `CapacityFacts`,
  `Completion`, `Admission`, `Planning`, `Iteration`, `Draining`, `History`, `PagePool`, `Engine`): the
  continuous-batching engine with its FCFS scheduler as one class. It makes room (copy a shared tail,
  evict cache, preempt the newest), prefills in chunks, replays preempted requests, decodes,
  speculates, admits over cached prefixes and publishes new ones. Its invariant `Inv` is kept by every
  method and therefore over every run (`Serve`).
* **Speculative decoding** (`Greedy`, `Acceptance`, `PaddedCache`, `BatchedSpeculation`,
  `SequentialSpeculation`, `Tally`): the engine's acceptance rule, the batched decoder over left-padded
  rows, and the single-sequence decoder, each equal to plain greedy decoding, and what they report.
* **Physical layout** (`PagedLayer`, `KvWrite`, `BatchLaunch`): the doubling paged layer, page
  scatter and gather, and the addressing of the write kernels. A parallel launch is proved race
  free from the engine invariant, and to do for all its rows what a forward pass does for each.

The main results, from the outside in:

1. `ServingEngine.Serve`: whatever clients submit or cancel and however often the loop iterates,
   every finished greedy request has exactly the output that plain greedy decoding of the submitted
   prompt gives, cut at the first submitted stop token, or end of sequence unless it is to be ignored,
   or the submitted limit, and the reported reason is the right one. Each event changes the requests
   just as its client may expect.
2. `ServingEngine.Drain`: once nothing new arrives, finitely many iterations end every request, as
   finished, out of memory or too large, whatever is preempted or parked on the way. And
   `Iterations.FirstProgresses`: in each iteration in which the first request in line decodes, it gets
   at least one token if it could have the room for its turn with nobody else there
   (`CapacityFacts.Servable`), and fails otherwise. The same holds of a chunk planned for it while it
   prefills (`Iterations.FirstFills`). `Engine.Step`: a greedy request that gets its turn gets exactly the
   drafts the model agrees with and one token more, and nobody is left waiting beside a free slot and
   free memory unless it has just yielded (`Engine.AdmitPhase`).
3. `Lifecycle.GatherIsOwnRun`: in every reachable state, gathering a live request's blocks gives the
   K/V of its own tokens, as if it had run alone in private memory.
4. `Lifecycle.WriteExclusivity` and `BatchLaunches.ReadyRowsOwnPages`: a row only writes pages that
   it owns alone, hence decode and prefill launches are race free.
5. `BatchedSpeculation.Generate` and `SequentialSpeculation.Generate`: speculation is lossless for
   every target, draft, depth and batch, and takes exactly the rounds that the agreement of the two
   models allows.
6. `ServingEngine.Engine.EnsureKvCapacity` and `AcquireCapacity`: a request finds room without
   anybody giving way if and only if the room is attainable (`Prospects.Attainable`); otherwise requests
   created later go, the latest first, and the oldest request ends up with its room if and only if it
   could have it alone. It is never displaced.
7. `PrefixCaching.PrefixCache.EvictUntilFree`: pressure eviction reaches its goal if and only if the
   goal leaves room for the blocks that are pinned or lie above a pinned node.

Where the code and its comments disagree, the model follows the code:

* The comment at `engine/batching/continuous_batching.py:918-920` says that a capture without live
  rows wraps around the dummy slots. The code refuses a bucket with more padded rows than slots
  (lines 898-899) and never wraps; `DecodeStaging.Prepare` does the same.
* The scheduler promises that an admitted request can be served once it is alone
  (`engine/scheduler/scheduler.py:18-20`). With the prefix cache in use this is false, in two ways.
  `evict_until_free` cannot free a cached block that lies above a block some request holds, even when
  that is the request that asks: `StarvedStates.TwoRequestsStarve`, for every block size of at least
  two, in which a request that was promised three pages gets two. And a request whose prompt ends
  inside a page shares that page with its own exact entry; on a pool that it fills there is no block
  to copy the page to, and the entry is not worth evicting, since the request holds its blocks too:
  `StarvedStates.OnePageStarves`, in which a request that was alone from the start is failed at its
  first decode step with unused slots in its page. `LonePrompts.ServeLone` drives a new engine
  of one page until that request, the only one it gets, has failed. `CapacityFacts.Servable` is the
  exact condition.
  Without a prefix cache it holds for every admitted request (`Engine.AlwaysServed`), so there the
  promise is kept.

Exceptions and `None` answers of the source are the results `Raised` and `Exhausted`.

## Model

| member | source | states |
|---|---|---|
| BlockAllocation.BlockAllocator.Allocate | engine/cache/allocator.py:116-127 | Takes the last `count` blocks of the free list or nothing; the exact error and exhaustion conditions; counts and sorted free list still agree with the ledger |
| BlockAllocation.BlockAllocator.Attach | engine/cache/allocator.py:129-144 | Succeeds exactly for a new owner and distinct blocks that somebody already holds; never touches the free list |
| BlockAllocation.BlockAllocator.Release | engine/cache/allocator.py:146-158 | Removes exactly one owner; its blocks become free exactly if no other owner lists them, and the free list stays sorted |
| BlockAllocation.BlockAllocator.Extend | engine/cache/allocator.py:160-172 | Appends fresh blocks that no owner lists to one owner, all or none |
| BlockAllocation.BlockAllocator.ReplaceShared | engine/cache/allocator.py:174-192 | Swaps one block, by Python index, for a fresh one exactly if it has several owners and a free block exists |
| Ownership.CountsAfterInsert | engine/cache/allocator.py:138-144 | Adding an owner of distinct blocks raises exactly their counts, so each count remains the number of owners |
| Ownership.CountsAfterRemove | engine/cache/allocator.py:150-158 | Removing an owner lowers exactly its blocks' counts |
| Ownership.CountsAfterReplace | engine/cache/allocator.py:160-192 | Changing an owner's list adjusts exactly the blocks gained and lost |
| Paging.GatherReadsLocations | engine/cache/paging.py:25-29 | The flat gather reads, for every token, exactly the block and slot that `physical_location` names |
| Paging.StoredIsGathered | engine/cache/paging.py:140-152 | "The blocks hold these values" is equivalent to the reference gather returning them |
| Paging.WriteAppends | engine/cache/paging.py:25-29 | Writing the slot after the last token through distinct blocks extends the stored run by that value and disturbs nothing earlier |
| Paging.KVBlockManager.Reserve | engine/cache/paging.py:40-55 | A table of just enough free blocks, or the exact error or exhaustion; tables mirror the allocator |
| Paging.KVBlockManager.AttachPrefix | engine/cache/paging.py:57-73 | Shares live blocks exactly if the length ends in the last of them |
| Paging.KVBlockManager.CopyOnWriteTail | engine/cache/paging.py:75-84 | Replaces a shared, partly filled last block by a free one; refuses an aligned or unshared tail |
| Paging.KVBlockManager.EnsureCapacity | engine/cache/paging.py:92-105 | Grows the table to the target exactly if the free list covers the difference; committed length unchanged |
| Paging.KVBlockManager.AppendTokens | engine/cache/paging.py:107-116 | Commits tokens; within the reserved capacity it always succeeds and leaves allocator and free list alone |
| Paging.KVBlockManager.Release | engine/cache/paging.py:118-121 | Drops a request's table and its ownership together |
| PrefixCaching.PrefixCache.Lookup | engine/cache/prefix.py:73-104 | An exact hit if allowed and present, otherwise the longest published complete-block prefix that leaves one prompt token; exactly what was hit becomes the most recently used; nothing is published or evicted |
| PrefixCaching.PublishedPrefix | engine/cache/prefix.py:121-147 | What is published is closed under block-aligned prefixes |
| PrefixCaching.NothingLongerPublished | engine/cache/prefix.py:88-99 | Stopping at the first missing edge loses nothing: no longer prefix is published |
| PrefixCaching.PrefixCache.Retain | engine/cache/prefix.py:115-170 | Publishing adds exactly the complete blocks that were missing and says how many those were, earlier publishers win, and an exact entry is added exactly if a first token comes along and the prompt fits the cache; the prefixes along the path become the most recently used, the deepest last and the new entry after it, and no other access stamp changes |
| PrefixCaching.PrefixCache.Publish | engine/cache/prefix.py:106-172 | Afterwards at most `max_blocks` distinct blocks are cached, within the limit everything retained is still there, and what stays keeps the access order that retaining gave it: a prefix that was there already is refreshed |
| PrefixCaching.PrefixCache.EvictOne | engine/cache/prefix.py:253-278 | Drops the unique least recently used leaf or exact entry (optionally only one that frees memory) if there is one, and nothing else |
| PrefixCaching.LeastIsUnique | engine/cache/prefix.py:208-210 | Access stamps are pairwise distinct, so the least recently used candidate is unique and the id tie-break never decides |
| PrefixCaching.FreeableByCounts | engine/cache/prefix.py:240-251 | Comparing allocator and cache counts decides exactly whether no request holds the block |
| PrefixCaching.PrefixCache.EvictToLimit | engine/cache/prefix.py:212-214 | Terminates with the bound restored, whatever was cached |
| PrefixCaching.PrefixCache.EvictUntilFree | engine/cache/prefix.py:174-189 | Terminates, returns what it freed, changes only cache owners, reaches the goal if and only if the unreclaimable blocks leave room for it, and otherwise stops with nothing freeable left |
| PrefixCaching.PrefixCache.Clear | engine/cache/prefix.py:191-193 | Empties nodes, edges, entries and reference map |
| PrefixCaching.PrefixCache.ReferencesWithinRefcounts | engine/cache/prefix.py:219-238 | The cache's count of a block never exceeds the allocator's, and equals it exactly where no request holds the block |
| PrefixCaching.NoCandidateMeansEmpty | engine/cache/prefix.py:191-193 | A cache without leaf or exact entry is empty: a non-empty forest always has a leaf |
| PrefixForest.GrowKeeps | engine/cache/prefix.py:133-147 | A new node keeps edges and nodes in bijection, child sets exact, parents before children, stamps distinct and reference counts exact, and publishes exactly one more prefix |
| PrefixForest.DropNodeKeeps | engine/cache/prefix.py:268-276 | Dropping a leaf keeps all of that and withdraws exactly its prefix |
| PrefixForest.DropExactKeeps | engine/cache/prefix.py:268-271 | Dropping an exact entry keeps all of that and withdraws no radix prefix |
| PrefixForest.TouchStamps | engine/cache/prefix.py:208-210 | A touch shows on the one prefix it is meant for and on no other |
| Reclaiming.LeafBelow | engine/cache/prefix.py:253-255 | Below every node there is a leaf, because children have larger ids than their parents |
| Reclaiming.EvictionKeepsUnreclaimable | engine/cache/prefix.py:240-278 | Evicting a freeable victim does not change which blocks eviction can never free |
| Reclaiming.NothingLeftToFree | engine/cache/prefix.py:184-188 | When no candidate is freeable, every used block is pinned by a request or lies on a node above a pinned one |
| Prospects.ReachShown | engine/cache/prefix.py:174-189 | What the forest can never free is exactly what requests hold and what is published on the way to a page they hold |
| Prospects.AttainableStays | engine/cache/prefix.py:174-189 | Pressure eviction changes nobody's chance of getting room |
| Prospects.CopyKeepsProspects | engine/batching/continuous_batching.py:957-982 | Neither does a tail copy: the block it takes stands in for the tail it gives up |
| Prospects.SettledTail | engine/batching/continuous_batching.py:984-994 | A request with a full or unshared last block needs just the blocks it lacks |
| Prospects.SharedForGood | engine/batching/continuous_batching.py:967-975 | With nothing freeable and nothing free a shared tail cannot be had: the refusal is right |
| Prospects.AttainableAmong | engine/batching/continuous_batching.py:1007-1021 | What a request can get among others it can get alone, so preempting never hurts the one that asks |
| Alone.ServedWithoutCache | engine/scheduler/scheduler.py:18-20 | With nothing cached a request can, alone, get every page that is not set aside |
| Alone.OwnEntryShares | engine/batching/continuous_batching.py:957-982 | A request that shares a partly filled tail with its own exact entry, on a pool with nothing in reach, cannot write another token, not even into the slots it has |
| Alone.IdleUsesNothing | engine/cache/prefix.py:240-251 | With nobody active and nothing freeable, only the pages set aside are in use |
| Prospects.AttainableForLess | engine/batching/continuous_batching.py:984-994 | Room that can be got for a target can be got for every smaller one |
| Iterations.WholeRunServed | engine/scheduler/scheduler.py:18-20 | A request that could have the room for its whole run alone could have it for every one of its turns, drafts included |
| LonePrompts.OnlyPageShared | engine/batching/continuous_batching.py:957-982 | On a pool of one page, whoever has its first token pending and its prompt cached can never have the room for another turn |
| LonePrompts.LoneGoesOn | engine/batching/continuous_batching.py:1707-1758 | Each iteration leaves the only request of such an engine without its first token, or with it and its prompt cached, or failed for memory |
| LonePrompts.Exhaust | engine/batching/continuous_batching.py:2464-2465 | The iterations end, and the request has failed for memory |
| LonePrompts.ServeLone | engine/scheduler/scheduler.py:18-20 | From its set-up on, under all limits the source accepts: an engine of one page with a prefix cache fails, for lack of memory, the only request it ever gets, although prompt and limit fit the page |
| StarvedStates.OnePageStarves | engine/scheduler/scheduler.py:18-20 | For every model, block size and prompt shorter than a page: a state with the invariant and one lone admitted request that cannot get its next token, because its own exact entry shares its page |
| StarvedStates.TwoRequestsStarve | engine/scheduler/scheduler.py:18-20 | For every model and block size of at least two: a state with the invariant and one lone admitted request that cannot get the third page it was promised, because that page is cached above one it holds |
| PagedStore.KvOfPrefix | engine/cache/prefix.py:149-150 | The K/V of a prefix is a prefix of the K/V: what makes sharing sound |
| PagedStore.AdmitKeeps | engine/scheduler/scheduler.py:116-121 | A new table over shared or fresh blocks keeps the store consistent and disturbs no other request |
| PagedStore.ExtendKeeps | engine/batching/continuous_batching.py:984-994 | So does growth by free blocks, provided the writable tail is already private |
| PagedStore.GrowthNeedsPrivateTail | engine/cache/paging.py:92-105 | The manager's own growth keeps the store consistent if and only if the writable tail was already private, which is why the engine copies first |
| PagedStore.CopyKeeps | engine/batching/continuous_batching.py:957-982 | So does a tail copy, after which every writable block of the request has one owner |
| PagedStore.WriteKeeps | engine/kernels/kv_write.py:39-84 | So does a write past the committed length of a private block |
| PagedStore.CommitKeeps | engine/cache/paging.py:107-116 | So does advancing a committed length within the capacity |
| PagedStore.ReleaseKeeps | engine/cache/paging.py:118-121 | So does a release |
| PagedStore.EvictKeeps | engine/cache/prefix.py:253-278 | So does any eviction |
| PagedStore.PublishKeeps | engine/cache/prefix.py:106-172 | So does a publish of stored tokens: a request's newly shared block with unused slots is only ever its last one |
| Lifecycle.GatherIsOwnRun | engine/cache/paging.py:140-152 | Refinement: gathering a live request's blocks up to its length gives the K/V of its own tokens |
| Lifecycle.FinishedIsGreedyRun | engine/batching/continuous_batching.py:1933-1947 | Token identity: a finished greedy request has exactly the greedy continuation of its prompt |
| Lifecycle.RunningIsGreedyPrefix | engine/batching/continuous_batching.py:1964-1972 | Before it finishes, its outputs are a prefix of that |
| Lifecycle.DecodingLength | engine/batching/continuous_batching.py:1242-1254 | Every decoding request has committed prompt + outputs - 1 tokens, also after hits, replays and speculation |
| Lifecycle.WriteExclusivity | engine/batching/continuous_batching.py:957-994 | Every block with a slot between the committed length and the acquired target is owned by that request alone |
| Lifecycle.DrainConservation | benchmarks/reliability/soak.py:217-226 | With no active request the used blocks are the dummy pages plus the distinct cached blocks, which are disjoint |
| ServingEngine.Engine.Drained | benchmarks/reliability/soak.py:217-226 | The same as an equation between the engine's counters |
| ServingEngine.Engine.constructor | engine/batching/continuous_batching.py:831-865 | Sets aside just enough whole pages for one slot per graph row and establishes the invariant |
| ServingEngine.NewEngine | engine/batching/continuous_batching.py:400-418 | Refuses exactly the sizes, budgets, draft depths, graph widths, pools and queue bounds (`scheduler.py:42-45`) that the source refuses, and otherwise gives an engine in its starting state; without a proposer the depth is checked and never used |
| ServingEngine.Engine.Evict | engine/cache/prefix.py:174-189 | Pressure eviction inside the engine: every request's row stays as it is, nobody's prospects change, and the goal is reached if and only if it is within reach |
| ServingEngine.Engine.EnsureWritableTail | engine/batching/continuous_batching.py:957-982 | True leaves every writable block private; false only if a copy is needed and no block is free or freeable; either way what the request can get is what it was |
| ServingEngine.Engine.EnsureKvCapacity | engine/batching/continuous_batching.py:984-994 | Gives room and exclusivity up to the target if and only if that is attainable, shared tail included; a failure changes nobody's prospects |
| ServingEngine.Engine.Preempt | engine/scheduler/scheduler.py:175-198 | Releases the pages, keeps what was asked for and every generated token, marks the epoch, and queues the request behind everybody created earlier and ahead of everybody created later, ids deciding at equal times |
| ServingEngine.Engine.NewestActive | engine/scheduler/scheduler.py:169-173 | The active request with the greatest creation time, and at equal times the greatest id |
| Arrival.ArrivalOrder | engine/scheduler/scheduler.py:173-195 | Creation time, then id, is a strict total order |
| Arrival.BeforeMeans | engine/scheduler/scheduler.py:173-195 | Earlier means a smaller creation time, or at equal times an id that is smaller at the first character where the two differ, or that ends there |
| ServingEngine.Engine.AcquireCapacity | engine/batching/continuous_batching.py:996-1021 | Terminates; true implies room; nobody gives way while the room is attainable with everybody there; whoever gives way was created after the requester, if it is not the requester itself, and after everybody who stays; the oldest request gets its room if and only if it could get it alone; false for an active requester only if it is alone |
| Yielding.OldestStays | engine/batching/continuous_batching.py:996-1021 | The oldest active request is never displaced, whoever asks |
| Yielding.FailedIsThinned | engine/batching/continuous_batching.py:1023-1029 | A request that fails while it is alone keeps the batch's account in order: everybody else yielded, nobody is active any more, and it was the oldest of all that failed; that it is alone by then is `AcquireCapacity`'s result |
| ServingEngine.Engine.CapacityOrFail | engine/batching/continuous_batching.py:1023-1029 | Room for one request of a batch, or it yielded, or it failed alone; the oldest fails if and only if it could not have the room alone; other active rows keep theirs, and the epoch advances only with a failure |
| ServingEngine.Engine.AcquireAll | engine/batching/continuous_batching.py:1885-1899 | The whole capacity pass: exactly the planned requests still active at the end come out, all of them still have their room although later ones preempted, and the oldest of all is among them if and only if it could have its room alone |
| ServingEngine.Engine.InArrivalOrder | engine/batching/continuous_batching.py:2351-2358 | Each request once, by creation time and then id |
| ServingEngine.Engine.DecodeViable | engine/batching/continuous_batching.py:2351-2365 | The decode and verification capacity pass over requests sorted by arrival |
| ServingEngine.Engine.WriteNext | engine/kernels/kv_write.py:39-84 | One token attends to exactly its own context and stores its vector behind it |
| ServingEngine.Engine.Forward | engine/batching/continuous_batching.py:2078-2085 | Several tokens in order: each prediction is the model's choice after the tokens before it; nothing is committed |
| ServingEngine.Engine.Commit | engine/batching/continuous_batching.py:1964-1966 | After room was acquired a commit always succeeds and takes no block from the free list |
| Batching.CommitIsLocal | engine/batching/continuous_batching.py:1901-1909 | And it concerns no other request |
| ServingEngine.Engine.Emit | engine/batching/continuous_batching.py:1964-1972 | Commits the inputs behind the emitted tokens, appends them, and finishes the request exactly if the last one ends it: reported as STOP exactly for a stop token, otherwise as EOS exactly for an end of sequence that counts, otherwise as LENGTH with the limit reached |
| ServingEngine.Engine.Retire | engine/scheduler/scheduler.py:152-167 | A terminal request loses its pages, keeps its tokens, and advances the progress epoch |
| ServingEngine.Engine.PublishPrefix | engine/batching/continuous_batching.py:1148-1163 | Offers the prompt, with the first token only if greedy; the cache has what publishing retains, less what its limit takes |
| Completion.PublishedKeeps | engine/batching/continuous_batching.py:1148-1163 | Publishing and shrinking keep the store consistent and no other request notices |
| ServingEngine.Engine.CompletePrefill | engine/batching/continuous_batching.py:1177-1198 | A resumed request continues with its last token and ignores the prediction, a new one emits its first token, a missing prediction fails it; the prompt is published, and in a cache that may hold the whole pool it is then kept and nothing else is lost |
| ServingEngine.Engine.Fill | engine/batching/continuous_batching.py:1901-1909 | Commits a chunk, replays a resumed history if asked, and completes the prefill exactly when nothing remains |
| ServingEngine.Engine.ReplayDecodeInput | engine/batching/continuous_batching.py:1201-1244 | Rebuilds one historical input; the historical token stands |
| ServingEngine.Engine.ReplayHistory | engine/batching/continuous_batching.py:1246-1254 | Rebuilds all of them; the outputs are unchanged |
| ServingEngine.Engine.CommitRows | engine/batching/continuous_batching.py:2428-2433 | Every row of a batch that had its room gets its outcome; the "could not be committed" errors cannot occur |
| Batching.RowCommitted | engine/batching/continuous_batching.py:1348-1355 | Committing one row, with all publishing and finishing that follows, leaves the later rows ready and staged |
| ServingEngine.Engine.RowOutcome | engine/batching/continuous_batching.py:2087-2176 | A greedy row's forward pass yields exactly the drafts the model agrees with and one more token of its own, cut at the first ending token and the limit; a sampled row yields one token |
| Batching.PredictionsVerify | engine/batching/continuous_batching.py:2087-2132 | One verification pass gives the model's own choice after every proposal prefix |
| ServingEngine.Engine.FillOutcome | engine/batching/continuous_batching.py:1458-1512 | A prefilling row's chunk is the next part of its history, or the whole prompt on the padded path |
| ServingEngine.Engine.RunRows | engine/batching/continuous_batching.py:2367-2433 | Every row of a batch does exactly what was planned, greedy decoding rows emit exactly what their drafts and the model determine, and nobody else moves |
| ServingEngine.Engine.DecodePass | engine/batching/continuous_batching.py:2345-2433 | Every request of a decode batch emits at least one token, for greedy ones exactly those that its draft and the model determine, or gives way to an older one, or fails alone; the oldest emits if and only if it could have the room alone; all others stay or give way |
| ServingEngine.Engine.PrefillChunks | engine/batching/continuous_batching.py:1358-1439 | The same for planned chunks, each filled completely; whole fresh prompts go the replaying way; if the cache may hold the whole pool, the prompt of every greedy request that starts decoding is cached afterwards |
| ServingEngine.Engine.FusedRowsStep | engine/batching/continuous_batching.py:2250-2339 | Decode rows and chunks in one pass do what two passes would, including the fallback when no decode row is left; the oldest request's decode row is always carried out, and its chunk if and only if it could have the room alone |
| Batching.ThinnedThenProgress | engine/batching/continuous_batching.py:2351-2433 | Room-making and the following pass compose: carried out, or given way to an older request |
| ServingEngine.Engine.TakeOffers | engine/batching/continuous_batching.py:1977-2022 | Exactly the greedy rows with at least two tokens to go for which the proposer has an answer take part, with that answer, within the speculation depth and leaving room for the target's own token |
| ServingEngine.Engine.SpeculativeDecodeStep | engine/batching/continuous_batching.py:1988-2031 | Whatever the proposer offers, every decoding request gets its turn in one of the depth groups or the ordinary step, and a greedy one that gets tokens gets exactly the agreed drafts and one more; the oldest gets tokens if and only if it could have the room for its own draft alone |
| Batching.TurnedOn | engine/batching/continuous_batching.py:2011-2031 | Over the groups of a step, and the phases of an iteration, each request still gets no more and no less than one turn's tokens |
| Iterations.OneTurn | engine/batching/continuous_batching.py:2011-2031 | A group's pass leaves requests of other groups waiting for their turn, or they gave way |
| ServingEngine.Engine.AdmitHead | engine/scheduler/scheduler.py:103-144 | Admits over the longest reusable prefix or one fresh block; refuses only if no block is free or freeable, and then changes nobody |
| Admission.LookupReusesLongest | engine/scheduler/scheduler.py:105-121 | An admitted request starts with at least as many tokens as any published prefix or usable entry offers |
| Admission.HitIsUsable | engine/scheduler/scheduler.py:114-121 | The blocks of a hit are distinct, live and hold exactly the K/V of the matched tokens; a whole-prompt hit carries the model's own first token |
| ServingEngine.Engine.AdmitAvailable | engine/scheduler/scheduler.py:87-145 | Serves the queue strictly in order. Who leaves it is rejected for capacity if prompt and limit exceed the pages not set aside, and is admitted otherwise. While a slot and memory are left, only a head that yielded in the present epoch waits, and only while others run |
| Admission.QueueIsSifted | engine/scheduler/scheduler.py:94-145 | A queued request is rejected at admission if and only if prompt and limit exceed the pages not set aside, and then with KV_CAPACITY_EXCEEDED |
| ServingEngine.Engine.StarvedIsOut | engine/scheduler/scheduler.py:122-137 | When admission stops for memory, no block is free or could be freed |
| ServingEngine.Engine.CapacityMeans | engine/scheduler/scheduler.py:94-100 | The capacity that admission checks is that of the pages not set aside |
| ServingEngine.Engine.AdmitPhase | engine/batching/continuous_batching.py:1735-1738 | After admission, a request that never yielded is not left waiting beside a free slot and memory within reach; nobody gets a token but by a whole-prompt hit; decode rows that wait for a fused pass keep their room |
| ServingEngine.Engine.CompleteHits | engine/batching/continuous_batching.py:1736-1738 | Exactly the admitted requests whose whole prompt was cached start decoding |
| ServingEngine.Engine.PlanPrefill | engine/scheduler/scheduler.py:213-234 | One chunk per visited request that needs one, in line order, within chunk size and budget; stops early only with the budget used up; the visited go to the back of the line |
| PrefillPlanning.OneVisit | engine/scheduler/scheduler.py:221-233 | One more visit keeps all of that; only the last chunk may be cut short by the budget |
| PrefillPlanning.ClosesIn | engine/scheduler/scheduler.py:213-234 | No starvation: a request that needs a chunk gets one or moves strictly closer to the front |
| ServingEngine.Engine.Step | engine/batching/continuous_batching.py:1707-1758 | One iteration decodes, admits, starts hits, plans and prefills as its trail says; no token is lost; every greedy request that decodes gets exactly one turn's tokens or none; nobody waits in the queue beside a free slot and memory unless it yielded; whoever ends is finished, out of memory or too large; the first request in line progresses or fails as `FirstProgresses` and `FirstFills` say; as long as a request is alive a well-founded measure goes down |
| Iterations.IterationTurned | engine/batching/continuous_batching.py:1707-1758 | Decoding, admission, hits and a fused pass together give a decoding request no more than its one turn |
| Iterations.IterationEnds | engine/batching/continuous_batching.py:1707-1758 | An iteration ends requests only as finished, as failed for memory, or as rejected for a prompt and limit above the capacity |
| Iterations.FirstProgresses | engine/batching/continuous_batching.py:1707-1758 | The first live request in line, if it decodes, gets a token in every iteration in which it could have the room for its turn with nobody else there, and otherwise fails for memory |
| Iterations.FirstFills | engine/batching/continuous_batching.py:1707-1758 | If a chunk is planned for the first live request in line, it is filled if and only if the request could have the room for it with nobody else there; otherwise the request fails for memory |
| ServingEngine.Engine.Submit | engine/scheduler/scheduler.py:75-85 | Exact refusal conditions; otherwise the record has exactly the submitted prompt, limit, sampling mode, stop tokens, eos choice and time, and no output, and stands at the end of the queue, or is rejected with QUEUE_FULL exactly if the queue is full |
| ServingEngine.Engine.Cancel | engine/scheduler/scheduler.py:200-211 | Removes a queued or active request, keeps the order of the queue, releases pages, leaves every other row alone |
| Histories.SubmissionStands | engine/scheduler/scheduler.py:75-85 | In every run, what was submitted last under an id is what the engine goes on to serve under it, whatever else is submitted, cancelled or iterated |
| Histories.RunAnswers | engine/batching/continuous_batching.py:1673-1758 | Hence every run owes each client the greedy continuation of what it submitted, cut at the first submitted stop token, or end of sequence unless it is to be ignored, or the submitted limit, with the right reason; and before that a prefix of it |
| Iterations.IterationSeen | engine/batching/continuous_batching.py:1707-1758 | What a client sees of an iteration: no token is taken back, requests end for the named reasons only, and whoever arrived before everybody else alive gets a token if it decodes, or fails for memory |
| ServingEngine.Handle | engine/batching/continuous_batching.py:1673-1758 | Each submission, cancellation and iteration changes the requests exactly as the client may expect of it |
| ServingEngine.Serve | engine/batching/continuous_batching.py:1673-1758 | Over every history of submissions, cancellations and iterations: each event has its expected effect; every finished greedy request that was submitted has exactly the greedy continuation of its submitted prompt under its submitted stop tokens and limit, others a prefix of it; the invariant holds, and nobody waits in vain between iterations |
| ServingEngine.Drain | engine/batching/continuous_batching.py:2464-2465 | The loop that iterates until nothing is queued or active ends: every request that was alive is finished, failed for memory or rejected as too large, none is cancelled or lost, and finished greedy ones have the isolated greedy output |
| Draining.IterationShrinks | engine/scheduler/scheduler.py:5-17 | Each iteration ends a request, or admits one that had not yielded since the last release, or sends one back to the queue, or brings an active one closer to its end, in this order of weight |
| Draining.AdvanceKeeps | engine/scheduler/scheduler.py:11-14 | Between iterations a parked request waits for an epoch that is still to come and only while others run, and no active request sits fully prefilled |
| Draining.BatchServed | engine/batching/continuous_batching.py:2345-2433 | After a batch each active request is as it was, or strictly closer to its end, or parked in the epoch in which the batch started, or done |
| Draining.AdmittedWasFresh | engine/scheduler/scheduler.py:101-109 | Whoever is admitted had not yielded since the last release, in an idle engine too |
| Draining.IdleEnds | engine/scheduler/scheduler.py:92-100 | An idle engine that admits nobody rejects somebody |
| ServingEngine.Engine.IdleHasMemory | engine/scheduler/scheduler.py:126-137 | With nobody active there is always a block for the head of the queue |
| ServingEngine.Engine.AlwaysServed | engine/scheduler/scheduler.py:18-20 | With the prefix cache off, a decoding request that passed the admission check can always have room for its turn alone |
| GreedyDecoding.CompleteChainIsGreedyRun | engine/model/runner.py:78-123 | A sequence is the greedy run if and only if each token is the model's choice and it stops where greedy decoding stops |
| GreedyDecoding.Generate | engine/model/runner.py:78-123 | The reference loop computes the greedy run |
| DraftAcceptance.PlanGreedyCommit | engine/speculative/acceptance.py:25-82 | Under every model that fits the verified predictions, what is committed is that model's greedy continuation; counters, error conditions, and the terminal reason: STOP exactly for a stop token, else EOS exactly if it counts, else LENGTH exactly at the limit |
| DraftAcceptance.AgreedIsLongestChain | engine/speculative/acceptance.py:49-53 | What is accepted of a draft is its longest prefix in which each token is the model's own choice |
| DraftAcceptance.VerifiedIsAgreed | engine/speculative/acceptance.py:49-53 | One verification pass finds exactly that prefix |
| DraftAcceptance.OwnAgreement | engine/speculative/acceptance.py:49-53 | A model that drafts for itself is never wrong |
| DraftAcceptance.EmittedIsGreedy | engine/speculative/acceptance.py:55-74 | Any cut of the candidates where greedy decoding stops is greedy decoding |
| DraftAcceptance.CandidatesChain | engine/speculative/acceptance.py:49-59 | The agreed drafts and the target's next token form a greedy chain |
| PaddedBatches.ExtendedIsClean | engine/batching/batched_speculative.py:75-113 | Left padding is harmless: the visible part of an extended row is the isolated run of its real tokens, at positions 0, 1, 2 and so on |
| PaddedBatches.PredictsAlone | engine/batching/batched_speculative.py:97-113 | On a clean row the batched predictions are the isolated model's |
| PaddedBatches.CropIsClean | engine/batching/batched_speculative.py:232-246 | Cropping a clean row leaves the clean row of the shorter context |
| BatchedSpeculation.PadLeft | engine/batching/batched_speculative.py:118-121 | Padding to a rectangle loses no prompt token and ends in a real one |
| BatchedSpeculation.DraftProposals | engine/batching/batched_speculative.py:142-150 | Every unfinished row's proposals are the draft model's own greedy continuation of the row; both caches and masks grow by the depth |
| BatchedSpeculation.Accept | engine/batching/batched_speculative.py:178-196 | Ragged acceptance: agreed drafts and one token of the target's own; finished rows emit nothing |
| BatchedSpeculation.ShortestEmission | engine/batching/batched_speculative.py:206-210 | The commit length is the least emission among unfinished rows |
| BatchedSpeculation.CommitRow | engine/batching/batched_speculative.py:217-222 | A row takes the committed tokens up to its limit and its first ending token |
| BatchedSpeculation.CommitRows | engine/batching/batched_speculative.py:217-224 | All rows, and the exact sums of agreed drafts and of those committed |
| BatchedSpeculation.CountsAreShares | engine/batching/batched_speculative.py:178-196 | The counted agreements are those of the two models, each row alone, and a finished row has none |
| BatchedSpeculation.CommitRound | engine/batching/batched_speculative.py:178-224 | A round brings the batch exactly one token further than the least agreement among its unfinished rows, or to the limit, and counts the sums of the agreements and of what is kept of them |
| BatchedSpeculation.RowAdvances | engine/batching/batched_speculative.py:206-222 | A committed row is still the target's greedy chain, complete exactly if it is done or full |
| BatchedSpeculation.Rollback | engine/batching/batched_speculative.py:226-253 | Cropping one short and decoding the last committed token once leaves each cache exactly behind the new context, prediction included |
| BatchedSpeculation.Round | engine/batching/batched_speculative.py:135-253 | The same for the whole round, from drafting to the decode that follows the rollback; it restores the round invariant for both caches |
| BatchedSpeculation.Generate | engine/batching/batched_speculative.py:116-256 | Every output row is the target's greedy continuation, and the reported rounds, proposals, agreements and committed drafts are what the two models alone determine; a target that drafts for itself needs at most one round for every depth + 1 tokens, and without ending tokens exactly that many, with every proposal right and committed |
| SpeculationTallies.BatchTotals | engine/batching/batched_speculative.py:124-256 | Committed <= agreed <= proposed = depth x rows x rounds, and no more rounds than tokens |
| SpeculationTallies.OwnBatch | engine/batching/batched_speculative.py:135-224 | How many rounds a perfect draft takes, for every batch, depth and limit |
| SequentialSpeculation.DecodeState.Crop | benchmarks/speculative/pair_screen.py:72-80 | Cuts the cache to a shorter context and refuses to grow |
| SequentialSpeculation.CutStopsRight | benchmarks/speculative/pair_screen.py:140-145 | Cutting a round at the first ending token and at the limit stops where greedy decoding stops |
| SequentialSpeculation.DecideRound | benchmarks/speculative/pair_screen.py:127-148 | A round extends a greedy chain, is complete exactly when the loop ends, keeps exactly the agreed drafts up to an ending token, and advances by the agreement and one token, up to the limit |
| SequentialSpeculation.Generate | benchmarks/speculative/pair_screen.py:84-164 | The output is the target's greedy run for every draft and depth, and rounds, proposals and accepted drafts are what the two models alone determine; with a perfect draft as in the batch |
| SpeculationTallies.OwnScreen | benchmarks/speculative/pair_screen.py:104-160 | How many rounds a perfect draft takes, the last ones proposing no more than the room that is left |
| ContiguousArena.ContiguousKVAllocator.Allocate | engine/cache/allocator.py:33-51 | The lowest address with enough consecutive unowned tokens; none exactly if there is no such address; ranges keep tiling the arena |
| ContiguousArena.ContiguousKVAllocator.Release | engine/cache/allocator.py:53-68 | Free ranges stay sorted, tiling and maximally merged; releasing everything restores one range |
| ContiguousArena.RunInOneRange | engine/cache/allocator.py:40-51 | Because free ranges never touch, every free run lies within one of them |
| ContiguousArena.FreeTokensCount | engine/cache/allocator.py:71-76 | The reported free tokens are the tokens nobody owns |
| PagedLayers.PagedLayer.Update | engine/cache/paged_cache.py:142-153 | Any sequence of updates gathers to the concatenation of its writes; block count is initial times two to the growths; less than half is slack after growing |
| PagedLayers.PagedLayer.GrowTo | engine/cache/paged_cache.py:92-103 | Doubling reaches the requirement and keeps what is stored |
| PagedLayers.FlattenIsGather | engine/cache/paged_cache.py:128-140 | Flattening all pages is the reference gather over the identity table |
| PagedLayers.ScatterIntoPages | engine/cache/paged_attention.py:44-64 | Through distinct in-range blocks the pages hold the tokens in order; index errors exactly for a token without a block |
| PagedLayers.BlockRoundTrip | engine/cache/paged_attention.py:87-109 | Scatter through reversed blocks and gather is the identity |
| KvWrites.Launch | engine/kernels/kv_write.py:11-84 | A race-free launch stores everything and touches nothing else, in any order of its programs |
| KvWrites.OneOutcome | engine/kernels/kv_write.py:80-84 | That determines the pool |
| KvWrites.DummySlotsDistinct | engine/batching/continuous_batching.py:860-865 | Padded rows never share a slot |
| KvWrites.DecodeStaging.Prepare | engine/batching/continuous_batching.py:867-935 | Succeeds exactly for rows with a pending token and a slot for it, a bucket that fits and enough dummy slots; stages as many rows as the bucket says, or as there are live ones without a bucket; fresh columns, stale tails, padded rows |
| KvWrites.StaleColumnsUnread | engine/kernels/kv_write.py:43-56 | Whatever columns an earlier batch left, a live row writes where its own table says |
| KvWrites.DecodeIsRaceFree | engine/kernels/kv_write.py:39-84 | Over live and padded rows together all destinations differ |
| KvWrites.DecodeBatchStores | engine/kernels/kv_write.py:39-84 | Such a launch extends every live row's stored run by exactly its own vector |
| KvWrites.PrefillIsRaceFree | engine/kernels/kv_write.py:98-131 | So do those of a prefill or verification launch whose rows write apart, with padding tokens and -1 columns masked |
| KvWrites.PrefillBatchStores | engine/kernels/kv_write.py:98-131 | Such a launch extends every row's stored run by exactly its own chunk |
| KvWrites.PrefillInChunks | engine/kernels/kv_write.py:98-131 | Every way of splitting a prompt into chunks gathers to the same run |
| BatchLaunches.ReadyRowsOwnPages | engine/batching/continuous_batching.py:867-935 | Decode rows that passed the capacity check, with the dummy slots if there are any, satisfy what race freedom needs |
| BatchLaunches.DecodeLaunchStages | engine/kernels/kv_write.py:39-84 | One parallel decode launch does for all its rows what the forward pass does for each: every row's stored run is longer by its own pending token, nobody else notices, and the invariant holds |
| BatchLaunches.ChunkLaunchStages | engine/kernels/kv_write.py:98-131 | One parallel prefill or verification launch over the chunks of ready rows does the same: every row's stored run is longer by its whole chunk, nobody else notices, and the invariant holds |
| BatchLaunches.ReadyChunksApart | engine/batching/continuous_batching.py:1458-1512 | Chunks of ready rows never write a page that another row lists |

## Left out

- ServingEngine.Engine.Submit: the id reserved for the dummy rows is excluded; the source would queue such a request and raise at its admission.
- ServingEngine.Engine.constructor: its precondition is what `NewEngine` checks; the options of graph capture and automatic sizing are not modelled.
- ServingEngine.Engine.SpeculativeDecodeStep: what the proposer offers comes with each iteration and may be anything; an offer longer than what the source asks for counts as none; n-gram and model proposers, their caches and `forget` are not modelled.
- ServingEngine.Engine.RowOutcome: the sampler of non-greedy rows is any token; logprobs, penalties and random streams are not modelled.
- ServingEngine.Engine.Forward: rows of a batch go through the model one after another; that the device does them at once without interference is what the race-freedom results say.
- PagedLayers.PagedLayer.Update: at least one initial block is required; with `initial_blocks = 0` the source's doubling would not terminate.
- StarvedStates.TwoRequestsStarve: the state is given with its invariant and the cache behind it; the run that leads to it is not part of the proof, unlike that of the one-page state.
- BatchedSpeculation.Generate: depth zero and empty prompts are excluded, which the source leaves to tensor errors; the commit histogram is not kept.
- SequentialSpeculation.Generate: the same exclusions; timings are not kept.
- The scheduler object is folded into the engine class, and a request's `allocation` handle is its entry in the manager's tables, so aliasing between the two is not represented.
- Keys and values are one value per token and layer; heads, dimensions, layers, INT8 and FP8 scales and rounding are not modelled.
- The model is an arbitrary function of the cached run, so differences between attention kernels are outside the statements.
- CUDA-graph capture and replay, warm-up coverage, kernel selection and device buffers other than the decode staging rows.
- `reset`, `release`, `warmup`, the tokenizing part of `generate`, sizing of an automatic pool, and every statistics counter, timestamp and report.
- `set_sequence_length`, `static.py`, `pool_cache.py`, `kv_cache.py`, `block_table.py`: thin next to the core.
- Requests with a prompt length but no prompt tokens: `Submit` refuses an empty prompt.
- HTTP serving, benchmarks and preflight checks.
