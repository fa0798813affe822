# The key/value cache of the serving engine, verified

A Dafny model of how the engine stores, shares, evicts and reads the key/value cache while it
schedules requests, with proofs over every reachable state. `dafny verify dfyconfig.toml` checks
the whole project.

## What is modelled

**Memory and scheduling.** A pool of reference-counted blocks with an intrusive free list
(`PoolSpec`, `BlockPool`); one paged cache per request, with its device copy of the block table
(`CacheSpec`, `PagedCache`); the radix tree of shared prefixes with pins and an eviction list
(`RadixSpec`, `RadixUpdate`, `RadixInsertEvict`, `LruList`, `LruOrder`, `RadixCache`); and the
serving loop over all three (`Serving*`, `Scheduler`).

Each layer comes twice: as a value with functions and lemmas, and as an object whose methods
update its fields and are proved to take the value to what the function says. The tree as a value
works on whole blocks, one letter per block; the tree as an object works on tokens.

The serving loop is a state machine. Between the two points where it waits for the model, clients
submit and abort. A tick clears aborted requests, then admits waiting ones in arrival order under
an exact block budget, or preempts the latest arrivals until every running request can take one
more token. A pass runs the metadata step for the batch, writes the cells, samples one token per
request, then records and releases finished requests. A pass may also die at any point, leaving
arbitrary data in the slots it was about to fill; everything in flight is then dropped. Where a step
leaves references that nothing owns, the state lists them as `lost`, and the run goes on.

`ServingTheorems` has the results about ownership, content and budget over whole runs. What each step
does to the requests is said of the lists alone, whatever happens to blocks and caches: who is cleared,
admitted or preempted by a tick (`ServingCards`, `ServingSteps`, `ServingKept`, `ServingGate`), what a
pass does to its batch (`ServingPasses`, `ServingOnce`), and what it records (`ServingRecord`).
`ServingDrain` concludes that the queue is worked off. `ServingBudget`, `ServingFaultless`,
`ServingPreempt`, `ServingCensus` and `ServingSlots` have further results, `ServingDepartures` and
`ServingWitness` the exact conditions and the concrete runs for the departures listed below.

The model itself is a parameter: `kv` gives the cell written for a token from the cells before it,
`next` the token chosen from all cells. So the results hold for every deterministic model. The
admission reserve is an arbitrary function of the tokens still to be generated.

**Storage.** The flat pool and its addresses, the warp that scatters a token, the batch's slot
mapping, padded tables and length sums (`PagedStore`, `PagedBatch`); the contiguous cache
(`KvCache`); and both of them run over the same history of batches, from empty storages to what the
kernels read (`PagedTwin`). `ServingSlots` shows that the batches of the serving loop are the ones the
storage asks for.

**Attention over exact reals.** The tiled online softmax with its four lanes per row, the decode
kernel with its warp sums, the split decode and its log-sum-exp merge (`AttentionSpec`,
`AttentionKernels`, `AttentionDecode`), and both storages under them (`PagedAttend`). The
exponential is any positive function that turns sums into products; the mask value is a separate
element below every score, whose difference with itself is zero.

**The weight file header and index maps.** The scanner and the header parser as loops, proved
against functions on the remaining text, with a round trip and its converse (`JsonScan`, `Header`,
`HeaderPrint`, `HeaderExact`), element counts and sizes spelled out (`TensorSize`, `HeaderMeaning`);
row-major index maps of any rank for concatenation and for softmax along an axis (`IndexMaps`).

## Where the code leaves its documentation

The code is modelled as it is; for each departure there is an exact condition, an input that shows
it, or both.

- `xstar_cpp/src/radix_cache.cpp:166,178-179`: after a lookup that stops inside a block the new leaf
  starts at the first differing token, not at the block boundary. `RadixTree.Insert` is proved for
  both behaviours (`floored` selects the documented one): the leaf is whole blocks if and only if the
  lookup does not stop inside a block (`DivergesMidBlock`), and `MidBlockHappens` shows one that does.
- `serve/scheduler.py:264-268`: a finished request records one token more than was computed.
  `RecordAllIff`: whatever the slot of that token holds, the tree stays right if and only if the token
  completes no block or its block is already recorded. `WrongTreeRun` is a run after which the tree
  records a wrong block, `WrongAnswerRun` goes on to a request that is answered wrongly because of it.
  The results on content hold for every run in which each recorded request meets that condition
  (`RunHarmless`), which is every run without prefix sharing or with recording cut at what was computed
  (`cutAtCursor`, `FaithfulRun`). Reference counts, pins, the eviction list, order and budget hold for
  the call as written.
- `serve/scheduler.py:238-239`: a matched prefix that reaches the length limit is forked and then
  refused by the cache. `OverflowIff` says when; `OverflowLeaks` what the tick leaves: every request
  dropped and one reference too many on each matched block; `LostForever` that no later action frees
  such a block; `OverflowRun` is a run that does it; `NeverLoses` says it takes prefix sharing and a
  request that does not fit the context. Eviction still reports such a block as freed, so the budget
  can promise a prefill batch too much: exactly when the reported blocks with lost references outnumber
  what the budget has left over (`UnderfundedIff`), as in the run `UnderfundedRun`.
- `serve/scheduler.py:253-259`: preemption can empty the running list, and the empty batch fails. It
  happens if and only if a lone running request meets a pool without a free block (`PreemptEmptyIff`,
  `EmptyBatchIff`); that request and all waiting ones are then dropped (`LoneRequestLost`), as in the
  run `LoneRun`.
- `xstar_cpp/src/paged_kv_cache.cpp:154`: the boundary test is right exactly for block sizes of two
  or more (`DecodeKeepsIff`).
- `xstar_cpp/src/paged_kv_cache.cpp:163`: a second prefill after an adoption is not rejected
  (`SecondPrefillIff`).
- `xstar_cpp/src/paged_kv_cache.cpp:140`: an extend prefill is checked for its own length only, so
  the device copy of the table can be outgrown (`PrefillFitsIff`, `ExtendOverruns`).

The first of these sets a `fault` marker in the state machine and stops the run; it is the only thing
that does. `NeverFaults` says that no run meets it without prefix sharing or with floored leaves.

## Model

| member | source | states |
|---|---|---|
| `ServingTheorems.Transparency` | serve/scheduler.py:161-280 | For any deterministic model and any interleaving of submits, aborts, ticks, passes and crashes in which no wrong block gets recorded (`RunHarmless`; always so without sharing or with recording cut at the cursor): what every request, waiting, running or gone, has generated is a prefix of what it would generate alone, and a request that finished normally generated exactly that, cut at the first end token or the length limit |
| `ServingTheorems.CacheContent` | serve/scheduler.py:192-275 | In every state such a run reaches, each position below a running request's cursor holds the cell of exactly the tokens up to it, and each block the tree records holds the cells of the tokens on its root path |
| `ServingTheorems.Ownership` | serve/scheduler.py:107-132 | In every reachable state a block's reference count is the number of its occurrences in running block tables, plus one if the tree holds it, plus the references an overflow has lost; no block is recorded twice; with nothing running the allocated blocks are the tree's and the lost ones |
| `ServingTheorems.PinAccounting` | serve/scheduler.py:213-225 | In every reachable state each tree node's lock count is the number of running requests holding a node at or below it, plus one for the root, across splits and evictions; no request holds a node that is gone |
| `ServingTheorems.FirstCome` | serve/scheduler.py:171-173 | In every reachable state running followed by waiting is duplicate-free and in arrival order |
| `ServingTheorems.NoOvertaking` | serve/scheduler.py:253-258 | In no state of any run does a request wait that arrived before one that runs |
| `ServingTheorems.BatchesAreFunded` | serve/scheduler.py:246-259 | For the batch of every reachable state, prefill or decode: the metadata step fails if and only if a request of the batch is at the length limit or the batch needs more blocks than are free, and the latter takes a prefill after references have been lost |
| `ServingTheorems.FailsOnLengthOnly` | xstar_cpp/src/paged_kv_cache.cpp:140-158 | A metadata loop that fails, for a decode or with enough free blocks for the prefills, names a request of the batch whose length reached the limit |
| `ServingBudget.UnderfundedIff` | serve/scheduler.py:216-244 | Departure, exact: a tick leaves its prefill batch with too few free blocks if and only if its evictions reported more blocks with lost references than its budget has left over |
| `ServingBudget.AttemptBudget` | serve/scheduler.py:192-244 | One admission attempt changes the budget by exactly what it changes the free blocks not yet promised, plus the reported blocks with lost references |
| `ServingWitness.UnderfundedRun` | serve/scheduler.py:216-248 | A concrete run in which a batch of two requests, both below the length limit, is admitted on one free block |
| `ServingTheorems.NoSharedWrite` | serve/scheduler.py:238-239 | Every slot a batch writes lies in a block with reference count one that neither the tree nor any other request holds, so copy-on-write is never needed |
| `ServingTheorems.OverflowIff` | serve/scheduler.py:238-239 | An admission attempt that gets as far as forking is refused by the cache if and only if something matched and the match reaches the length limit; never for a request that fits the context |
| `ServingTheorems.OverflowLeaks` | serve/scheduler.py:238-239 | After the tick in which that happens nothing runs or waits, and each block has exactly one reference more than its owners account for, for each time it was forked, on top of what was lost before |
| `ServingTheorems.LostForever` | serve/scheduler.py:125-132 | A block with a lost reference is never free again: after any further actions, releases and evictions among them, it is allocated and not on the free list |
| `ServingTheorems.StepLost` | serve/scheduler.py:134-159 | Only a tick that overflows loses references, exactly the forked blocks, and no step finds one again |
| `ServingAdmit.OverflowKeeps` | serve/scheduler.py:238-239 | After the fork and the refusal the matched blocks are in the tree, their new references are the only ones without an owner, and the rest of the invariant holds, so everything in flight can be released |
| `ServingWitness.OverflowRun` | serve/scheduler.py:238-239 | A concrete run, with sharing as written, that ends with every request dropped and block 0 lost |
| `ServingTheorems.RunSound` | serve/scheduler.py:161-280 | Cache content and request progress are an invariant of every step of a run that records no wrong block, including failing passes that leave junk in the slots they were about to fill |
| `ServingTheorems.FaithfulRun` | serve/scheduler.py:264-268 | Without prefix sharing, or with recording cut at what was computed, every run is one that records no wrong block |
| `ServingCensus.EveryRequestAccounted` | serve/scheduler.py:97-132 | Conservation of requests: in every reachable state the requests waiting, running and gone are together exactly those submitted, each once, with the prompt and limits it came with |
| `ServingSteps.StartClears` | serve/scheduler.py:116-167 | After any tick of any run the aborted set is empty and nobody in it runs or waits. Unless admission broke off, exactly those of them that were live have left, each once, not normally, with what they had generated, and all others live on in the same order; if it broke off, everybody has left in that way |
| `ServingSteps.StartEnds` | serve/scheduler.py:246-260 | A tick goes back to idle if and only if admission broke off or nothing that ran is left and nobody was admitted. If some were admitted they are the first of the queue and run last, in a prefill. Otherwise the oldest of those that ran decode, and the others are back at the front of the queue |
| `ServingSteps.DecodesMost` | serve/scheduler.py:250-259 | The requests that decode are the most that can be kept, oldest first, of those that run once clearing and admission are done |
| `ServingKept.PreemptExact` | serve/scheduler.py:253-257 | Preemption changes nothing when every running request has a free block; otherwise it keeps the longest prefix of the running list that can be kept: with any more of it there would be fewer free blocks than requests, where free means referred to by nobody else. The others stand before the old queue in arrival order with all they generated |
| `ServingGate.StartStops` | serve/scheduler.py:171-225 | Unless it breaks off, admission ends with an empty queue or a head that does not fit: the unpromised free blocks and those of unpinned leaves do not cover its need and all reserves, or everything evictable but its own match is gone and the free blocks do not cover its need |
| `ServingGate.RefusedIff` | serve/scheduler.py:174-225 | The gate, exact: an attempt is refused if and only if budget and unpinned leaves do not cover what the request needs beyond its longest recorded prefix plus the reserve of every running request and its own, or budget and all evictable blocks do not cover that need |
| `ServingGate.ReservesSum` | serve/scheduler.py:175-191 | The reserve is the sum, over the running requests, of what each may still generate |
| `ServingGate.AdmitAdopts` | serve/scheduler.py:192-239 | An admitted request starts with the longest recorded whole-block prefix of its tokens but the last, block by block what the tree records for it, and its cursor at its end |
| `ServingGate.AdmitEvicts` | serve/scheduler.py:216-244 | No eviction when the budget is enough; otherwise the budget left over is less than the blocks of one evicted node; nothing is added to what is recorded |
| `ServingGate.RefusedUses` | serve/scheduler.py:195-225 | A lookup counts as a use even when the request is then refused: the node it found is last in line for eviction |
| `ServingPasses.PassAdvances` | serve/scheduler.py:246-275 | A pass, exactly, in any run: unless it is doomed each request of its batch has one more token and all others have the same, those that are over have left normally and in order, the rest run on in order and the queue is untouched; a doomed one drops everybody, each once, with what they had generated |
| `ServingPasses.DoomedIff` | serve/worker.py:27-83 | A pass goes through if and only if its batch is not empty, has its blocks, and nobody in it is at the length limit |
| `ServingPasses.FailDrops` | serve/scheduler.py:147-156 | A pass that dies, wherever and leaving whatever behind, drops every request, each once, with what it had generated |
| `ServingPasses.ClientSteps` | serve/scheduler.py:92-100 | A submission joins the end of the queue with nothing generated; an abort is noted, and nothing else changes |
| `ServingPasses.LeavesAtOnce` | serve/worker.py:69-81 | In no reachable state has a live request its end token or all the tokens it asked for |
| `ServingOnce.LeavesOnce` | serve/scheduler.py:116-123 | In every reachable state no request has left twice, and none that has left runs or waits |
| `ServingRecord.PassRecords` | serve/scheduler.py:262-275 | A pass that is not doomed leaves every whole-block prefix of prompt and generated tokens of each request that finished in it recorded, keeps what was recorded, and records nothing else |
| `ServingRecord.FinishRecords` | serve/scheduler.py:264-268 | When a request finishes, each whole-block prefix of its tokens (all of them as written, or those computed) that was missing maps to its own block at that place, and no other entry changes; without prefix sharing nothing is recorded |
| `ServingDrain.Drains` | serve/scheduler.py:134-159 | Progress: from any reachable idle state, rounds of a tick and a pass, without crashes and new clients, end with every request gone, or with a head of the queue that does not fit while nothing runs, within one round per request and token still to be generated |
| `ServingDrain.StuckStays` | serve/scheduler.py:142-146 | That last state stays: further rounds change neither the queue nor who has left |
| `ServingFaultless.NeverFaults` | serve/scheduler.py:161-280 | Without prefix sharing, or with leaves cut at whole blocks, no run of any submissions stops at a part-block leaf, with the recording call as written |
| `ServingFaultless.NeverLoses` | serve/scheduler.py:238-239 | Without prefix sharing, or when every submission fits the context, no run ever loses a reference |
| `ServingPreempt.PreemptEmptyIff` | serve/scheduler.py:253-258 | Departure, exact: preemption leaves nothing running if and only if one request runs and no block is free |
| `ServingPreempt.EmptyBatchIff` | serve/scheduler.py:246-259 | A tick ends in an empty decode batch if and only if, after admission, no prefill was admitted, one request runs and no block is free |
| `ServingPreempt.LoneRequestLost` | serve/scheduler.py:253-259 | Then the request is preempted, the decode batch is empty, and the failing pass drops exactly that request and all waiting ones, none of them normally ended |
| `ServingWitness.LoneRun` | serve/scheduler.py:253-259 | A concrete run from a fresh pool in which a request is given up after its first token in this way |
| `ServingRun.Step` | serve/scheduler.py:134-159 | Every step keeps the whole-system invariant (ownership, pins, eviction list, order, phases) and leaves any pending batch funded |
| `ServingRun.Run` | serve/scheduler.py:134-159 | The invariant holds after any sequence of actions from a fresh pool, and the funding unless the run has stopped |
| `ServingDepartures.RecordAllIff` | serve/scheduler.py:264-268 | Departure, exact: over every content of the slot that was never computed, recording all of prompt and generated tokens keeps each recorded block right if and only if the last sampled token completes no block or its block is already recorded |
| `ServingWitness.WrongTreeRun` | serve/scheduler.py:264-268 | A concrete run, with sharing as written, that ends with a wrong block in the tree |
| `ServingWitness.WrongAnswerRun` | serve/scheduler.py:264-268 | A concrete run in which a later request matches that block, ends normally and has generated 0 where alone it would generate 8 |
| `ServingDepartures.AdmitLoopFits` | serve/scheduler.py:171-244 | The admission loop meets no overflow when sharing is off or every waiting request fits the context |
| `ServingDepartures.FinishNoFault` | serve/scheduler.py:262-275 | The finishing loop meets no part-block leaf when sharing is off or leaves are cut at block boundaries |
| `ServingAdmit.AttemptKeeps` | serve/scheduler.py:192-244 | One admission attempt, admitted, refused or overflowing, keeps what it must: the budget is the free blocks minus what this tick's admitted requests will still be given (as long as nothing has been lost), the invariant holds, and an overflow leaves a state that can be released |
| `ServingAdmit.AdmittedKeeps` | serve/scheduler.py:212-244 | An admitted request joins with its pinned, forked prefix, and the budget keeps its meaning |
| `ServingAdmit.RefusedKeeps` | serve/scheduler.py:204-225 | A refused attempt may have refreshed and evicted, keeps the invariant and the funding, and takes its pin back |
| `ServingAdmit.AdmitLoop` | serve/scheduler.py:171-244 | The whole loop ends with the invariant and every batched prefill funded, or at an overflow in a state that can be released |
| `ServingAdmit.PreemptLoop` | serve/scheduler.py:253-258 | Preemption ends with at least one free block per running request, keeping the invariant; `ServingKept.PreemptExact` says how far it goes |
| `ServingAdmit.Tick` | serve/scheduler.py:161-259 | From idle to the next forward pass the invariant holds and the batch is funded; `ServingSteps.StartEnds` says where it ends |
| `ServingForward.PrepareOne` | xstar_cpp/src/paged_kv_cache.cpp:125-188 | Metadata of one request takes exactly the missing blocks: at most one for a decode, and for a prefill the number admission counted |
| `ServingForward.NeverShort` | xstar_cpp/src/paged_kv_cache.cpp:154-175 | With enough free blocks for what is left of the batch, or for a decode with the budget in place, metadata fails on the length limit only |
| `ServingForward.Forward` | serve/worker.py:27-83 | A pass keeps the invariant whether it succeeds, is empty or hits the length limit |
| `ServingForward.Crash` | serve/scheduler.py:147-156 | A pass that dies after any number of requests, with arbitrary data in the slots concerned, keeps the invariant |
| `ServingForward.FailAll` | serve/scheduler.py:125-132 | Afterwards nothing runs or waits and the invariant holds, so only the tree's blocks stay allocated |
| `ServingForward.FinishSafe` | serve/scheduler.py:262-275 | Recording and releasing a finished request keeps the invariant; `ServingRecord.FinishRecords` says what is recorded |
| `Serving.MatchFacts` | serve/scheduler.py:192-202 | Because the last token is left out of the lookup, the matched blocks cover less than the sequence, at least one new block is needed, and the match is what the tree records for the request's own tokens |
| `Serving.Release` | serve/scheduler.py:116-123 | Releasing a request, running, waiting or already gone, keeps the invariant; `ServingSteps.StartClears` says who leaves |
| `ServingCore.CoreEvict` | xstar_cpp/src/radix_cache.cpp:244-261 | What eviction hands back can always be freed and no adopted prefix is lost; the free list grows by exactly the number returned when nothing was lost, and otherwise by that number less the returned blocks that carry lost references |
| `ServingCore.CoreInsert` | serve/scheduler.py:264-268 | Recording takes one reference on each newly recorded block, keeps ownership, pins and eviction list, and never records a block twice |
| `ServingCore.AdoptedKnown` | serve/scheduler.py:264-272 | At finish the insert still meets at least the adopted prefix, with the very same blocks |
| `ServingCore.CoreRelease` | serve/scheduler.py:107-114 | Giving back a request's pin and blocks always succeeds and keeps the invariant |
| `ServingSound.TickSound` | serve/scheduler.py:161-259 | A tick up to the forward pass keeps cache content and every request on its isolated track, preemption included |
| `ServingSound.ForwardSound` | serve/worker.py:27-83 | A pass keeps cache content and appends exactly the isolated next token to every request of the batch |
| `ServingSound.CrashSound` | serve/scheduler.py:147-156 | A failing pass keeps the content of every recorded block |
| `ServingSound.WritesAreExclusive` | xstar_cpp/src/ops/transformer_block.cpp:280-292 | A slot written for one request belongs to no other request and to no recorded block |
| `ServingSound.InsertContent` | serve/scheduler.py:264-268 | A request whose uncomputed token completes no block, or whose blocks are all recorded already, or that is recorded up to the cursor, adds only blocks that hold their tokens' cells |
| `SchedulerObject.Scheduler.constructor` | serve/scheduler.py:74-90 | A fresh scheduler is the initial state of the state machine |
| `SchedulerObject.Scheduler.Submit` | serve/scheduler.py:97-100 | The object's value steps as the state machine's submit |
| `SchedulerObject.Scheduler.Abort` | serve/scheduler.py:92-95 | The object's value steps as the state machine's abort |
| `SchedulerObject.Scheduler.FreeKv` | serve/scheduler.py:107-114 | Unpins the request's node and gives its blocks back, on the real tree and pool |
| `SchedulerObject.Scheduler.ReleaseRequest` | serve/scheduler.py:116-123 | Equals the release of the state machine |
| `SchedulerObject.Scheduler.ClearAborted` | serve/scheduler.py:165-167 | Equals releasing the aborted requests in the order walked |
| `SchedulerObject.Scheduler.FailAllInflight` | serve/scheduler.py:125-132 | Equals the fail-all step, also after a broken admission, where the request concerned has a cache but still waits |
| `SchedulerObject.Scheduler.AdmitNext` | serve/scheduler.py:192-244 | One iteration of the admission loop, on the real tree and pool: admitted, refused or overflowing exactly as the state machine says, with its state and budget in all three cases |
| `SchedulerObject.Scheduler.PinAndEvict` | serve/scheduler.py:212-225 | Pin, evict the shortfall, take the pin back when that is not enough: the tree, the pool and the budget after it |
| `SchedulerObject.Scheduler.Admit` | serve/scheduler.py:171-244 | Equals the admission loop of the state machine, the broken end included |
| `SchedulerObject.Scheduler.Preempt` | serve/scheduler.py:253-257 | Equals the preemption loop of the state machine |
| `SchedulerObject.Scheduler.TickStart` | serve/scheduler.py:161-259 | Equals the step from idle to the next forward pass, or to the state after a broken admission |
| `SchedulerObject.Scheduler.Prepare` | xstar_cpp/src/paged_kv_cache.cpp:140-183 | Updates request and pool as the metadata function does |
| `SchedulerObject.Scheduler.Sample` | serve/worker.py:69-81 | Appends one token per request in order and sets the new states |
| `SchedulerObject.Scheduler.RunBatch` | serve/worker.py:27-83 | Metadata, cells and tokens of a batch, or the state in which it failed |
| `SchedulerObject.Scheduler.FinishOne` | serve/scheduler.py:262-275 | Insert, free, unpin and removal of one finished request, on the real tree and pool; broken exactly when the insert would leave a part-block leaf |
| `SchedulerObject.Scheduler.FinishAll` | serve/scheduler.py:262-275 | Equals the finishing loop, and is broken exactly when that faults |
| `SchedulerObject.Scheduler.Pass` | serve/scheduler.py:246-275 | Equals the forward step of the state machine: batch and finishing, or fail-all; broken exactly when that faults |
| `RadixSpec.CoverUnique` | xstar_cpp/src/radix_cache.cpp:99-148 | At most one node covers a prefix: the tree is a function from prefixes |
| `RadixSpec.PrefixClosed` | xstar_cpp/src/radix_cache.cpp:99-148 | The recorded prefixes are prefix-closed and each has a block |
| `RadixSpec.MatchLongest` | xstar_cpp/src/radix_cache.cpp:99-148 | The lookup returns, in order, the blocks of the longest recorded whole-block prefix |
| `RadixSpec.StopUnique` | xstar_cpp/src/radix_cache.cpp:106-146 | Where a lookup stops is determined, so any correct walk ends at the same node and length |
| `RadixSpec.TouchKeeps` | xstar_cpp/src/radix_cache.cpp:108-112 | Refreshing keeps the list exact and the tree unchanged |
| `RadixUpdate.LockMonotone` | xstar_cpp/src/radix_cache.cpp:218-242 | Lock counts never increase going down |
| `RadixUpdate.PinKeeps` | xstar_cpp/src/radix_cache.cpp:218-229 | Pinning adds one handle and keeps structure, list, counter and lock counts |
| `RadixUpdate.UnpinKeeps` | xstar_cpp/src/radix_cache.cpp:231-242 | Unpinning drops one handle and keeps them |
| `RadixUpdate.SplitKeeps` | xstar_cpp/src/radix_cache.cpp:273-300 | A split keeps structure, list, counter and every pin, and leaves the prefix map unchanged |
| `RadixInsertEvict.InsertEntry` | xstar_cpp/src/radix_cache.cpp:150-216 | Insertion adds exactly the prefixes of the sequence that were missing, with their blocks, and overwrites nothing |
| `RadixInsertEvict.InsertKeeps` | xstar_cpp/src/radix_cache.cpp:150-216 | Insertion keeps structure, list, counter and every pin |
| `RadixInsertEvict.InsertInjective` | xstar_cpp/src/radix_cache.cpp:150-216 | Fresh distinct blocks keep the map injective |
| `RadixInsertEvict.EvictKeeps` | xstar_cpp/src/radix_cache.cpp:244-261 | Eviction keeps structure, list, counter and every pin, through parent cascades |
| `RadixInsertEvict.EvictRemoves` | xstar_cpp/src/radix_cache.cpp:244-261 | Eviction only removes prefixes of unpinned nodes, and hands their blocks back |
| `RadixInsertEvict.EvictFreed` | xstar_cpp/src/radix_cache.cpp:244-261 | Every block handed back was recorded under an unpinned node and is recorded no more |
| `RadixInsertEvict.EvictFreedDistinct` | xstar_cpp/src/radix_cache.cpp:244-261 | No block is handed back twice |
| `RadixInsertEvict.EvictComplete` | xstar_cpp/src/radix_cache.cpp:244-261 | It falls short only after freeing every block of an unpinned node, and then every remaining node but the root is pinned; otherwise it would have been short without the last node it evicted, whose blocks end what it returns |
| `RadixInsertEvict.EvictOldest` | xstar_cpp/src/radix_cache.cpp:244-261 | No node on the eviction list goes while an older one stays |
| `RadixInsertEvict.PinnedPrefix` | xstar_cpp/src/radix_cache.cpp:244-261 | A prefix of a pinned node's path is never under an unpinned node, so eviction cannot touch it |
| `RadixInsertEvict.MidBlockHappens` | xstar_cpp/src/radix_cache.cpp:166-179 | Departure: a lookup that stops inside a block of a tree with one insertion behind it |
| `LruOrder.OrderedByLastUse` | xstar_cpp/src/radix_cache.cpp:7-75 | After any history of uses and departures a list so kept holds exactly the nodes used since they last left, each once, least recently used first |
| `LruOrder.ListIsReplay` | xstar_cpp/src/radix_cache.cpp:99-261 | After any sequence of lookups, pins, unpins, splits, insertions and evictions of the empty tree, its eviction list is the replay of the uses and departures these operations are |
| `LruOrder.LeastRecentlyUsed` | xstar_cpp/src/radix_cache.cpp:7-75 | So the eviction list of a tree with any history holds exactly its unpinned leaves, each once, least recently used first |
| `LruOrder.TouchIsEvents` | xstar_cpp/src/radix_cache.cpp:108-112 | A hit is a use of a listed node |
| `LruOrder.PinIsEvents` | xstar_cpp/src/radix_cache.cpp:222-226 | A pin is a departure |
| `LruOrder.UnpinIsEvents` | xstar_cpp/src/radix_cache.cpp:235-239 | A last unpin of a leaf is a use |
| `LruOrder.InsertIsEvents` | xstar_cpp/src/radix_cache.cpp:150-216 | Insertion is a departure of the new leaf's parent and a use of the new leaf, the node that ends the inserted sequence; a split changes nothing |
| `LruOrder.EvictIsEvents` | xstar_cpp/src/radix_cache.cpp:249-258 | One node's eviction is a departure of the oldest node and, in a cascade, a use of its parent |
| `LruOrder.ShedIsEvents` | xstar_cpp/src/radix_cache.cpp:244-261 | A whole eviction is the departures and uses of its nodes in turn |
| `LruList.LRUList.PushBack` | xstar_cpp/src/radix_cache.cpp:13-24 | Appends a node that is not listed; refused otherwise; the sentinel links spell the new list |
| `LruList.LRUList.PopFront` | xstar_cpp/src/radix_cache.cpp:26-40 | Detaches the oldest node; refused when empty |
| `LruList.LRUList.MoveToBack` | xstar_cpp/src/radix_cache.cpp:42-53 | Moves a listed node to the recent end; refused otherwise |
| `LruList.LRUList.Remove` | xstar_cpp/src/radix_cache.cpp:55-66 | Detaches a listed node; refused otherwise |
| `LruList.UnlinkAt` | xstar_cpp/src/radix_cache.cpp:42-66 | Rewiring the two neighbours leaves links that spell the list without the node |
| `RadixCache.TokenCommon` | xstar_cpp/src/radix_cache.cpp:113-122 | Comparing tokens finds the common whole blocks, and leaves a remainder exactly when the two blocks there share a non-empty proper prefix |
| `RadixCache.RadixTree.MatchPrefix` | xstar_cpp/src/radix_cache.cpp:99-148 | Returns the blocks and node of the lookup on whole blocks and refreshes that node |
| `RadixCache.RadixTree.SplitNode` | xstar_cpp/src/radix_cache.cpp:273-300 | Throws exactly when the length is not positive, not whole blocks, or leaves less than a block; otherwise the split of the tree value |
| `RadixCache.RadixTree.Insert` | xstar_cpp/src/radix_cache.cpp:150-216 | Unless the lookup stops inside a block with unfloored leaves, the tree value after insertion and one reference on each new block; in that case, and only then, the leaf's key falls short of its block table, and the fork key is read past its end exactly when the key is shorter than a block |
| `RadixCache.RadixTree.IncLockRef` | xstar_cpp/src/radix_cache.cpp:218-229 | The walk up the parents is the pin of the tree value |
| `RadixCache.RadixTree.DecLockRef` | xstar_cpp/src/radix_cache.cpp:231-242 | The walk up the parents is the unpin of the tree value |
| `RadixCache.RadixTree.Evict` | xstar_cpp/src/radix_cache.cpp:244-261 | The eviction of the tree value; the blocks go back to the pool and their number is returned |
| `RadixCache.RadixTree.DeleteLeaf` | xstar_cpp/src/radix_cache.cpp:302-313 | Detaches the leaf from its parent's fork table and frees its blocks |
| `RadixCache.RadixTree.AttachLeaf` | xstar_cpp/src/radix_cache.cpp:194-211 | The new leaf in the program's order of updates; fits exactly when key and blocks match |
| `PoolSpec.AllocKeeps` | xstar_cpp/src/block_manager.cpp:47-63 | Allocation gives distinct free blocks one reference each and keeps the stack exactly the unreferenced blocks |
| `PoolSpec.FreeOkIff` | xstar_cpp/src/block_manager.cpp:65-76 | A free of a list, repeats included, succeeds if and only if no block occurs more often than it is referenced |
| `PoolSpec.FreeKeeps` | xstar_cpp/src/block_manager.cpp:65-76 | Each reference count drops by the number of occurrences and the stack stays exactly the unreferenced blocks |
| `PoolSpec.FreeGrows` | xstar_cpp/src/block_manager.cpp:65-76 | Freeing distinct blocks returns to the free list exactly those with one reference |
| `PoolSpec.RefKeeps` | xstar_cpp/src/block_manager.cpp:78-86 | Each reference count rises by the number of occurrences, the free list is unchanged |
| `PoolSpec.TakenBack` | xstar_cpp/src/block_manager.cpp:186-212 | The free list is a stack: taking a block undoes giving it back |
| `BlockPool.BlockManager.constructor` | xstar_cpp/src/block_manager.cpp:7-40 | All blocks free, lowest on top, and the sentinel links spell that stack |
| `BlockPool.BlockManager.PopFreeHead` | xstar_cpp/src/block_manager.cpp:186-202 | Unlinks the top of the stack, or reports an empty list |
| `BlockPool.BlockManager.PushFreeHead` | xstar_cpp/src/block_manager.cpp:204-212 | Links a block whose last reference is gone on top |
| `BlockPool.BlockManager.AllocBlocks` | xstar_cpp/src/block_manager.cpp:47-63 | All or nothing, in stack order |
| `BlockPool.BlockManager.FreeBlocks` | xstar_cpp/src/block_manager.cpp:65-76 | Drops references in order and stops at a block that is not allocated |
| `BlockPool.BlockManager.RefBlocks` | xstar_cpp/src/block_manager.cpp:78-86 | Adds references in order and stops at a block that is not allocated |
| `BlockPool.BlockManager.Fork` | xstar_cpp/src/block_manager.cpp:88-93 | The same table, one more reference on each block |
| `BlockPool.BlockManager.WriteBlock` | xstar_cpp/src/block_manager.cpp:95-113 | Gives a block the caller alone owns with equal contents in every layer, every other block untouched; fails exactly when the block is not allocated or a copy is needed and none is free |
| `BlockPool.BlockManager.CowCopy` | xstar_cpp/src/block_manager.cpp:115-126 | Copies a block in every layer and nothing else |
| `BlockPool.LinkedPop` | xstar_cpp/src/block_manager.cpp:186-202 | Unlinking the second member leaves well-formed links |
| `BlockPool.LinkedPush` | xstar_cpp/src/block_manager.cpp:204-212 | Linking a new member after the first leaves well-formed links |
| `CacheSpec.PrefillKeeps` | xstar_cpp/src/paged_kv_cache.cpp:159-183 | A first prefill, or one on an adopted prefix, covers exactly its tokens with the fewest blocks |
| `CacheSpec.DecodeKeeps` | xstar_cpp/src/paged_kv_cache.cpp:144-158 | A decode adds a block exactly when a boundary is crossed |
| `CacheSpec.DecodeKeepsIff` | xstar_cpp/src/paged_kv_cache.cpp:154 | Departure, exact: the boundary test keeps the table the right size if and only if the block size is at least two |
| `CacheSpec.SecondPrefillIff` | xstar_cpp/src/paged_kv_cache.cpp:163 | Departure, exact: a second prefill, not rejected because the adopted flag stays set, keeps the table the right size if and only if one of the two part-filled ends is empty or they overflow a block together |
| `CacheSpec.AdoptKeeps` | xstar_cpp/src/paged_kv_cache.cpp:200-224 | Adoption installs whole blocks below the length limit |
| `CacheSpec.PrefillAccepts` | xstar_cpp/src/paged_kv_cache.cpp:125-183 | A prefill is accepted if and only if its length is below the limit, the cache is empty or adopted, and the blocks are there; otherwise nothing changes |
| `CacheSpec.DecodeAccepts` | xstar_cpp/src/paged_kv_cache.cpp:144-158 | A decode is accepted if and only if the cache is live and below the limit and a block is free when the token needs one; when only that is missing the cursor has moved on |
| `CacheSpec.AdoptAccepts` | xstar_cpp/src/paged_kv_cache.cpp:200-224 | A prefix is adopted by a fresh cache only, if it is not empty and shorter than the limit |
| `PagedCache.PagedKVCache.PrepareMeta` | xstar_cpp/src/paged_kv_cache.cpp:125-188 | Host table and cursor as the metadata function says; the device copy starts with the host table; it would be written past its capacity exactly when the table outgrows it |
| `PagedCache.PagedKVCache.AdoptPrefix` | xstar_cpp/src/paged_kv_cache.cpp:200-224 | Adopts on a fresh cache only, and mirrors the table |
| `PagedCache.PagedKVCache.Reset` | xstar_cpp/src/paged_kv_cache.cpp:190-198 | Back to a fresh cache |
| `PagedCache.PagedKVCache.SlotMapping` | xstar_cpp/src/paged_kv_cache.cpp:115-120 | The slots of the last tokens, each physical block times block size plus offset |
| `PagedCache.LifeKeeps` | xstar_cpp/src/paged_kv_cache.cpp:125-224 | Over its whole life, through adoption, prefill, decodes and reset, a cache has exactly the blocks its cursor needs |
| `PagedCache.Live` | xstar_cpp/src/paged_kv_cache.cpp:125-224 | The object lives that life in place, its table, cursor and pool as the values say and its device copy up to date |
| `PagedCache.SlotsDistinct` | xstar_cpp/src/paged_kv_cache.cpp:119 | Distinct positions, of one table or of tables sharing no block, get distinct slots |
| `PagedCache.DecodeFits` | xstar_cpp/src/paged_kv_cache.cpp:150-158 | A decode never outgrows the device copy |
| `PagedCache.PrefillFitsIff` | xstar_cpp/src/paged_kv_cache.cpp:140-183 | Departure, exact: a prefill stays within the device copy if and only if the resulting cursor needs no more blocks than the length limit; always so on a fresh cache |
| `PagedCache.ExtendOverruns` | xstar_cpp/src/paged_kv_cache.cpp:165-173 | A concrete extend prefill that passes the length check and outgrows the device copy |
| `PagedBatch.Positions` | xstar_cpp/src/qwen2_model.cpp:97-118 | Positions given to the model are the next unwritten ones of each sequence |
| `PagedBatch.SlotMapping` | xstar_cpp/src/ops/transformer_block.cpp:271-293 | Each sequence's part of the slot mapping is the slots of its last tokens |
| `PagedBatch.Table2D` | xstar_cpp/src/ops/transformer_block.cpp:297-311 | Each row is a sequence's table, padded with zeros to the longest |
| `PagedBatch.CuSeqlensK` | xstar_cpp/src/ops/transformer_block.cpp:315-322 | Running sums of the cursors and their maximum |
| `PagedBatch.PagedWrite` | xstar_cpp/src/ops/paged_write.cu:33-61 | Each slot ends with the keys and values of a token sent to it, all others unchanged; with distinct slots each token's keys and values are in its slot |
| `PagedBatch.BatchHolds` | xstar_cpp/src/ops/transformer_block.cpp:271-295 | Writing the batch appends to every sequence exactly its new rows and disturbs no other position |
| `PagedBatch.HoldsKept` | xstar_cpp/src/ops/transformer_block.cpp:271-295 | A sequence none of whose slots is written keeps its contents |
| `PagedBatch.BatchDistinct` | xstar_cpp/src/ops/transformer_block.cpp:271-293 | Exclusive new blocks make all slots of a batch distinct |
| `PagedBatch.BatchApart` | xstar_cpp/src/ops/transformer_block.cpp:271-293 | and keep them away from every position written before |
| `ServingSlots.BatchesAreExclusive` | xstar_cpp/src/ops/transformer_block.cpp:271-293 | Every batch a run prepares, its new tokens laid end to end, has its slots defined, its blocks in the pool, and each block that gets a token held nowhere else: what `BatchDistinct`, `BatchApart` and `BatchHolds` ask for |
| `PagedBatch.ReadBack` | xstar_cpp/src/ops/paged_attention_decode.cu:66-86 | Gathering through the padded table reads what the pool holds for each position |
| `PagedStore.AddressIsLinear` | xstar_cpp/src/ops/paged_write.cu:56-59 | The computed address is the row-major offset of layer, block, key or value, head, slot and column |
| `PagedStore.AddressInjective` | xstar_cpp/src/ops/paged_write.cu:56-59 | Addresses are in bounds and no two elements share one |
| `PagedStore.OwnerIff` | xstar_cpp/src/ops/paged_write.cu:37-53 | Each column of each head belongs to exactly one lane, the one whose loop reaches it |
| `PagedStore.WriteToken` | xstar_cpp/src/ops/paged_write.cu:37-60 | The lanes of a warp together write every head and column of the token, and nothing else |
| `KvCache.KVCache.Write` | xstar_cpp/src/kv_cache.cpp:24-96 | A prefill replaces the first positions, a decode the one before the cursor, in the given layer only; refused, or outside its buffers, exactly when the checks and offsets say |
| `KvCache.KVCache.View` | xstar_cpp/src/kv_cache.cpp:98-148 | The packed positions below the cursor |
| `KvCache.BufferAppends` | xstar_cpp/src/kv_cache.cpp:24-96 | A contiguous write at the end of what a buffer holds appends the source's rows to it |
| `PagedTwin.Play` | xstar_cpp/src/ops/transformer_block.cpp:271-295 | From empty storages, through any history of batches with a first prefill and then decodes of the followed sequence: the pool through its block table and its contiguous cache hold the same rows, layer by layer, the rows of that history |
| `PagedTwin.ViewsAfter` | xstar_cpp/src/kv_cache.cpp:98-148 | After any such history the packed views hold the history's rows, element for element what the pool holds through the block table |
| `PagedTwin.GatherBoth` | xstar_cpp/src/ops/paged_attention_decode.cu:66-86 | After any such history what a paged kernel gathers through the padded table is what the contiguous kernel reads from the views, for every layer and head |
| `AttentionKernels.LaneScores` | xstar_cpp/src/ops/paged_attention.cu:102-161 | The masked scores of a lane's keys, fast path or not, are those of the keys the row may see |
| `AttentionKernels.VisibleIs` | xstar_cpp/src/ops/paged_attention.cu:71-75 | With the queries the last tokens of the sequence, a query sees exactly its own token and the earlier ones |
| `AttentionKernels.LaneSoftmax` | xstar_cpp/src/ops/paged_attention.cu:163-169 | The running maximum and a sum that stands for the lane's weights, sentinels included |
| `AttentionKernels.QuadAllreduce` | xstar_cpp/src/ops/paged_attention.cu:170-192 | After two exchange rounds all four lanes hold the maximum and the sum over the tile |
| `AttentionKernels.RowTile` | xstar_cpp/src/ops/paged_attention.cu:66-219 | One tile extends what sum and columns stand for from the keys before it to the keys up to its end |
| `AttentionKernels.AttendRow` | xstar_cpp/src/ops/paged_attention.cu:66-230 | With causal skip, fast path, masking, rescaling and lane merge, each row is exactly the softmax average over the keys it may see, for any shift of the causal diagonal |
| `AttentionSpec.RepsRaise` | xstar_cpp/src/ops/paged_attention.cu:194-217 | Rescaling by the difference of the maxima and adding a part keeps what a running value stands for |
| `AttentionSpec.TileDen` | xstar_cpp/src/ops/paged_attention.cu:79-161 | A padded, masked tile adds exactly the keys it covers |
| `AttentionDecode.Butterfly` | xstar_cpp/src/ops/paged_attention_decode.cu:110-118 | After the five exchange rounds every lane holds the sum over the warp |
| `AttentionDecode.DecodeRow` | xstar_cpp/src/ops/paged_attention_decode.cu:60-156 | Single-pass decoding is the softmax average over all keys |
| `AttentionDecode.SplitsPartition` | xstar_cpp/src/ops/paged_attention_decode_split.cu:50-67 | The splits follow each other without gap or overlap from the first key to the last, for any length and number of splits; a split is empty exactly when it starts at or past the end |
| `AttentionDecode.SplitPartial` | xstar_cpp/src/ops/paged_attention_decode_split.cu:51-186 | A split leaves the logarithm of its weight and its average, or the sentinel and no average |
| `AttentionDecode.Reduce` | xstar_cpp/src/ops/paged_attention_decode_split.cu:206-228 | The log-sum-exp merge of the partials is the softmax average over all keys; an unset average is never read |
| `AttentionDecode.SplitDecodeRow` | xstar_cpp/src/ops/paged_attention_decode_split.cu:51-228 | Split decoding gives what the single pass gives, for any number of splits |
| `PagedAttend.PagedRow` | xstar_cpp/src/ops/paged_attention.cu:66-230 | Reading the pool through the padded table, a row is the average over the sequence's history |
| `PagedAttend.ContiguousRow` | xstar_cpp/src/ops/attention_fa2.cu:63-250 | Reading the packed view, a row is the average over the same history |
| `PagedAttend.PrefillBoth` | xstar_cpp/src/ops/attention_fa2.cu:63-250 | When pool and views hold the same rows, as `PagedTwin` shows they do, the paged and the contiguous kernel return the same row of a first prefill |
| `PagedTwin.PrefillTwins` | xstar_cpp/src/ops/attention_fa2.cu:63-250 | From empty storages, after a first prefill in a batch with any others, the paged and the contiguous kernel return the same row, with nothing assumed about what the storages hold |
| `PagedAttend.DecodeBoth` | xstar_cpp/src/ops/paged_attention_decode_split.cu:51-228 | Over the pool, single-pass and split decoding return the same row, the average over the whole history |
| `JsonScan.ScanWs` | xstar_cpp/src/json_scan.cpp:6-11 | The loop computes the whitespace reader |
| `HeaderMeaning.WhitespaceIs` | xstar_cpp/src/json_scan.cpp:6-11 | Space, tab, line feed and carriage return are skipped, and no other character |
| `JsonScan.ScanString` | xstar_cpp/src/json_scan.cpp:13-34 | The loop computes the string reader; failures agree |
| `JsonScan.ScanUint` | xstar_cpp/src/json_scan.cpp:36-55 | The loop computes the number reader; failures agree |
| `JsonScan.ScanIntArray` | xstar_cpp/src/json_scan.cpp:57-86 | The loop computes the array reader; failures agree |
| `JsonScan.ScanObject` | xstar_cpp/src/json_scan.cpp:88-121 | The loop computes the object skipper; failures agree |
| `Header.ParseHeader` | xstar_cpp/src/weight_io.cpp:33-206 | The nested loops compute the parser function, never past the header's end; failures agree |
| `Header.ScanDescriptor` | xstar_cpp/src/weight_io.cpp:88-186 | The descriptor loop and its checks compute the descriptor reader |
| `HeaderPrint.RoundTrip` | xstar_cpp/src/weight_io.cpp:33-206 | A file made of a length, a document in any tolerated layout and any data parses to exactly the document's tensors, offsets shifted by eight plus the header length |
| `HeaderPrint.StoredMeaning` | xstar_cpp/src/weight_io.cpp:33-206 | Any list of tensors with distinct names has a header that parses to those tensors and no others |
| `HeaderPrint.ObjectSkip` | xstar_cpp/src/json_scan.cpp:88-121 | A brace-nested object with quoted braces is skipped to just past its closing brace |
| `HeaderExact.AcceptsExactly` | xstar_cpp/src/weight_io.cpp:50-206 | A header text is accepted if and only if it is a printed document in which each span is four or two bytes, by its type, for each element, with the tensors the document describes |
| `HeaderMeaning.DescriptorText` | xstar_cpp/src/weight_io.cpp:88-182 | A descriptor that says `F32` is accepted if and only if its span is four bytes for each index tuple of its shape, one that says `BF16` if and only if it is two, with the file offset, shape and type it gives |
| `HeaderMeaning.DescriptorIff` | xstar_cpp/src/weight_io.cpp:168-179 | Any descriptor is accepted if and only if all three fields are there and the span fits type and number of index tuples |
| `TensorSize.NumelIsCount` | xstar_cpp/src/weight_io.cpp:171-175 | The product of the dimensions is the number of index tuples of the shape |
| `HeaderMeaning.MetadataText` | xstar_cpp/src/weight_io.cpp:66-87 | The entry `__metadata__` adds nothing, whatever braces and quotes it holds |
| `HeaderMeaning.OneTensorFile` | xstar_cpp/src/weight_io.cpp:33-206 | A whole file written out, eight bytes of length, one tensor and any data, and what it parses to |
| `IndexMaps.Invert` | xstar_cpp/src/ops/concat.cu:21-29 | Peeling coordinates off by division inverts the row-major offset, for any rank |
| `IndexMaps.Source` | xstar_cpp/src/ops/concat.cu:30-48 | The source of an output element is the element of the one input whose place it is |
| `IndexMaps.Concat` | xstar_cpp/src/ops/concat.cu:18-51 | Every element of every input lands in its own cell of the output, for any rank, axis and sizes |
| `IndexMaps.OriginUnique` | xstar_cpp/src/ops/concat.cu:30-41 | No two input elements go to the same cell |
| `IndexMaps.RowStart` | xstar_cpp/src/ops/softmax.cpp:9-24 | The start of a slice is the offset with the axis coordinate zero |
| `IndexMaps.CellInjective` | xstar_cpp/src/ops/softmax.cpp:9-24 | Slices and positions name distinct cells in bounds |
| `IndexMaps.CellOnto` | xstar_cpp/src/ops/softmax.cpp:9-24 | and every cell is named |
| `IndexMaps.Collapse` | xstar_cpp/src/ops/softmax.cpp:38-52 | Around one axis the tensor is outer by axis by inner |
| `IndexMaps.SoftmaxAlong` | xstar_cpp/src/ops/softmax.cpp:58-91 | After the three passes every cell holds its exponential over the sum of its slice |

## Left out

- ServingTheorems.Transparency: of runs in which every finishing request may be recorded as it is (`RunHarmless`); for the call as written this is false otherwise, by `WrongAnswerRun`.
- ServingTheorems.CacheContent: of the same runs; false otherwise, by `WrongTreeRun`.
- ServingRun.Run: a run stops at a finishing request whose unfloored leaf would end inside a block; what the program does after that is not modelled. An empty prompt is not accepted.
- SchedulerObject.Scheduler.FinishAll: says exactly when an insert stops inside a block with unfloored leaves, and nothing about the objects after it.
- SchedulerObject.Scheduler.Prepare: requests hold their cache as a value, so this repeats on it the update that `PagedKVCache` is proved to make in place; the device copy of the table is not part of the scheduler's state, and aliasing between cache objects is not captured.
- RadixCache.RadixTree.Insert: nodes live in an arena and name each other by identity; pointers to freed nodes are captured as identities that are no longer there, not as memory.
- LruList.LRUList.Remove: the links are maps from identities, not fields of the nodes.
- PagedBatch.PagedWrite: slots outside the pool and head counts that do not divide the warp are preconditions; `PagedTwin` derives the first from the block tables, and the launch checks the second.
- KvCache.KVCache.Write: says exactly when a copy would leave its buffers (a decode of no token, or at a later layer before anything was written), and nothing about memory after it; device, type and rank checks are not modelled.
- PagedTwin.Play: follows one sequence at a time, in a pool shared by the whole batch; each contiguous cache is its own object.
- AttentionKernels.AttendRow: rows past the end of the queries, which store nothing, are not modelled; shared-memory tiles are the values they hold.
- AttentionDecode.DecodeRow: idle warps past the last sequence are not modelled.
- Header.ParseHeader: numbers are unbounded, so an offset span that wraps around is not captured; the rejection of non-ASCII bytes depends on the signedness of `char` and is left out.
- The prefix-less cache object of `serve/scheduler.py:40-71` is an empty tree that is never inserted into.
- `PagedKVCache.write` (`xstar_cpp/src/paged_kv_cache.cpp:40-123`), which serving does not call: only its slot computation.
- `decode_ratio` and `decode_cap`: the reserve is an arbitrary function, so nothing is claimed about avoiding preemption.
- Progress under crashes or while clients keep submitting: `ServingDrain.Drains` is about rounds with neither; the failure counter of `serve/scheduler.py:157-159` is not modelled.
- Dense layers, rotary embedding, normalisation and sampling beyond the chosen token: inside the model parameter.
- Floating-point rounding, bf16, launch geometry, streams, races and memory copies: kernels are sequential loops over exact values.
- The prefill kernel with variable-length batches, the softmax kernel on the device, JSON numbers and booleans, memory mapping and the Python bindings.
- HTTP, streaming queues, tokenizer, the wake event and the thread pool: only the points where control is yielded.
