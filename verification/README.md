# Verified model of arena-b

arena-b is a bump allocator with rewindable checkpoints, concurrent fast paths
and slot pools. This project models its algorithmic core in Dafny 4.11 and
proves what the crate promises about it, over every run and, for the concurrent
parts, over every interleaving of any number of threads.
`dafny verify dfyconfig.toml` checks the whole project.

## What is modelled

- **Alignment** (`Alignment.dfy`): the mask expression `(v + a - 1) & !(a - 1)`
  on 64-bit words against the least multiple, with the exact condition under
  which the two agree.
- **Chunk bump under contention** (`ChunkCas.dfy`, `ChunkProgress.dfy`): the
  compare-and-swap loop of `Chunk::allocate` as a step machine with spurious
  failures and stores, proved linearizable to an atomic bump and lock-free.
- **Lock-free buffer** (`LockFreeBuffer*.dfy`): blocks claimed from a shared
  offset, thread-local slabs, owner and generation guards, statistics. A step is
  a load of the offset or of the generation, the exchange, thread-private work,
  or one of the two stores of a reset; counters move with the step that causes
  them. Safety comes from a ghost tag on every byte, in every era between two
  stores of zero to the offset; the history of calls ties every grant to the
  request it answers.
- **Lock-free pool** (`LockFreePool*.dfy`): the linked stack of boxed nodes, proved
  to be an atomic last-in first-out stack for the calls that were made, with its
  destructor walk. Addresses of freed nodes may be used again, within an exact limit.
- **Chunked arena** (`Arena*.dfy`): allocation, growth, checkpoints, rewinding,
  push/pop, scopes, resets. `ArenaClass` is the object form, proved against the
  state functions of `ArenaState`; `ArenaRuns` holds the run invariants;
  `ArenaReplay` and `ArenaUndo` compare the arena with an ideal one whose
  checkpoints are full copies; `ArenaScopes` treats nested scopes and push/pop
  blocks, with resets of any open scope, clearing, shrinking and unwinding;
  `ArenaScopeLimits` says exactly what they restore and `ArenaScopeExamples` gives cases.
- **Reserve/commit region** (`VirtualMemory*.dfy`): page arithmetic and the claim
  that no byte is handed out from an uncommitted page.
- **Slot pool** (`SlotPool*.dfy`), and two example programs: the **expression
  parser** (`Expr*.dfy`), which allocates its trees in an arena, with the meaning
  of its operators, and **breadth-first search** (`GraphBfs.dfy`) over pooled nodes.

Calls to the outside are parameters: whether the system allocator or a memory
mapping call succeeds, whether a weak compare-and-swap fails spuriously, and what
a read of a freed node returns.

Results that go against a documented or natural expectation:

- `docs/architecture.md` (line 46) says that a rewind restores `bytes_used`. The
  code recomputes it with padding included. `ArenaScopeLimits.ScopeRestoresBytesUsedIff`
  gives the exact condition and `ArenaScopeExamples.BytesUsedNotRestored` a run in which
  an empty scope turns 9 bytes into 16.
- `Scope::reset` takes `&self`, so an inner scope can reset an outer one, and then need
  not restore its own entry state, and counts allocations that are gone. `ArenaScopeLimits.EveryScopeRestoresIff` says exactly
  when it does for every body of a given kind, `ArenaScopeLimits.ScopeRestoresIff` for
  each body, and `ArenaScopeExamples.InnerScopeNotRestored` is a case.
- `reset_and_shrink_to_fit` inside a scope drops chunks and pushed checkpoints that the
  scope's own rewind needs. `ArenaScopeLimits.ShrinkInScope` says exactly when the entry
  state comes back all the same; `ArenaScopeExamples.ShrinkPanics` and
  `ArenaScopeExamples.ShrinkAndGrowReturns` are cases.
- A reset of the lock-free buffer is two stores, first the offset, then the generation.
  `LockFreeBufferResets.StepIsSafeIffGuarded` gives, step by step, the exact condition
  under which everything that follows is safe: it concerns the read of the generation for
  a block claimed between the two stores, and the threads that the second store finds at
  work. `LockFreeBufferResets.QuietRunIsSafe` shows that keeping calls away from a buffer
  during its resets, as the documentation asks (`src/arena.rs` line 771), is enough.
  `LockFreeBufferResets.RequestDuringResetOverlaps` and
  `LockFreeBufferResets.ResetDuringClaimOverlaps` are runs in which the same bytes are
  granted twice in one generation.
- The pool's stack tolerates recycled node addresses exactly as long as no pop that has
  read the address has its exchange still to try
  (`LockFreePoolRecycling.RecyclingIsSafeIffUntargeted`);
  `LockFreePoolRecycling.FreedWhileRead` is a run from the empty pool to the other case.
- A rewind brings everything back except pushed checkpoints that were cleared in
  between; `ArenaUndo.RewindIsReplayIff` gives the exact condition and
  `ArenaUndo.ClearedExample` a case.
- `VirtualMemoryRegion::commit` and `decommit` used directly can leave a hole below
  the committed mark. `VirtualMemory.SolidIffCareful` gives the exact condition in terms of
  the arguments and the mark; `VirtualMemory.CommitLeavesAHole` and
  `VirtualMemory.DecommitLeavesAHole` are cases.
- The pool's `allocations` counter is decremented by pushes and incremented by pops, so
  it is minus the number of stacked values modulo 2^64
  (`LockFreePoolSafety.BelowIsNegation`).

## Model

| member | source | states |
|---|---|---|
| `Alignment.AlignUp` | src/lib.rs:152-155 | the result is a multiple of the alignment, at or above the offset, less than one alignment away |
| `Alignment.AlignUpIsLeast` | src/lib.rs:152-155 | no multiple at or above the offset is smaller |
| `Alignment.MaskClearsLowBits` | src/lockfree.rs:21-23 | masking with the complement of 2^k - 1 rounds down to a multiple of 2^k, for every word width |
| `Alignment.MaskIsAlignUpIffNoWrap` | src/lockfree.rs:21-23 | the mask expression is the least multiple exactly when its addition does not wrap; when it wraps the result is zero |
| `Alignment.ValidLayoutNeverOverflows` | src/core.rs:149-151 | for every valid layout, rounding inside an allocation never wraps, the mask form is the least multiple and the end of the block fits the word |
| `ChunkCas.AtomicBumpIsSafe` | src/core.rs:145-196 | in every history of an atomic bump, live ranges are aligned, disjoint, inside the chunk and end at or below the pointer |
| `ChunkCas.NextReplays` | src/core.rs:149-163 | after every load, exchange, failure or store the history still replays on the atomic bump to the shared pointer |
| `ChunkCas.NextKeepsInv` | src/core.rs:145-196 | every step keeps the linearizability invariant |
| `ChunkCas.RunKeepsInv` | src/core.rs:145-196 | every state of every interleaving satisfies it |
| `ChunkCas.EveryInterleavingIsABump` | src/core.rs:145-196 | each finished call has its own event inside its interval with its result, there are no other events but stores, and the calls are thread by thread the requests made; live ranges never overlap and end at or below `used` and the capacity |
| `ChunkCas.NextEvents` | src/core.rs:145-175 | no step takes effect twice: every grant or refusal is the event of a call that returns it |
| `ChunkCas.RunAccounts` | src/core.rs:145-196 | in every run, the calls returned and running are the requests made, in order, and the stores in the history are the stores made |
| `ChunkProgress.LoadMeaning` | src/core.rs:147-155 | a load gives up exactly when no aligned start at or above the pointer has room, and otherwise changes nothing shared |
| `ChunkProgress.ExchangeMeaning` | src/core.rs:157-172 | an exchange that does not fail spuriously wins exactly when the value loaded still stands; the call then returns the least aligned start, and otherwise goes round again with nothing changed |
| `ChunkProgress.SoloCall` | src/core.rs:145-175 | a call that nobody interrupts returns the least aligned start after one load and one exchange, or fails after one load when there is no room |
| `ChunkProgress.LostExchangeMeansProgress` | src/core.rs:145-196 | in every interleaving, a thread whose exchange fails without a spurious failure was held up by a store or by a call of another thread that returned a block in between |
| `LockFreeBufferSafety.ServeKeepsInv` | src/lockfree.rs:84-98 | serving from a slab of the current generation takes only bytes the thread owns, so the new range meets no earlier grant |
| `LockFreeBufferSafety.TrySlabKeepsInv` | src/lockfree.rs:286-304 | the private fast path keeps the invariant, whether it serves, misses or drops a stale slab |
| `LockFreeBufferSafety.LoadKeepsInv` | src/lockfree.rs:317-330 | reading the shared offset keeps the invariant, also when the buffer is exhausted |
| `LockFreeBufferSafety.ClaimKeepsInv` | src/lockfree.rs:349-353 | a winning exchange turns unclaimed bytes into a block owned by one thread |
| `LockFreeBufferSafety.CasKeepsInv` | src/lockfree.rs:349-370 | so does the exchange in general, with a loss recorded as contention |
| `LockFreeBufferSafety.InstallKeepsInv` | src/lockfree.rs:354-366 | installing the block as the thread's slab and serving from it keeps the invariant |
| `LockFreeBufferSafety.StoreOffsetKeepsInv` | src/lockfree.rs:263 | the first store of a reset begins a new era of the buffer, at any moment, and keeps the invariant |
| `LockFreeBufferSafety.BumpKeepsInv` | src/lockfree.rs:264-283 | the second store, when it finds no thread that would be served from before it, makes every slab, grant and unfinished block of earlier eras stale and keeps the invariant |
| `LockFreeBufferSafety.NextKeepsInv` | src/lockfree.rs:219-373 | every guarded step of every thread keeps the invariant; only the second store of a reset and the read of the generation for a new block have guards |
| `LockFreeBufferSafety.RunKeepsInv` | src/lockfree.rs:219-373 | every state of every interleaving of guarded steps satisfies it |
| `LockFreeBufferSafety.EveryInterleavingIsSafe` | src/lockfree.rs:219-373 | for any number of threads and buffers, with resets begun at every moment and completed at every harmless one, ranges granted in one generation of a buffer are pairwise disjoint, inside it, aligned as the layout of the grant says, and from blocks claimed in its era; that this layout is the one requested is `LockFreeBufferAnswers.EveryGrantAnswersACall` |
| `LockFreeBufferSafety.StaleSlabNeverServes` | src/lockfree.rs:59-98 | every grant comes from a block claimed in the buffer's current generation |
| `LockFreeBufferSafety.ClaimServesItsRequest` | src/lockfree.rs:306-366 | the block a refill claims serves the request that claimed it, at its first byte, for alignments up to 64 |
| `LockFreeBufferCalls.NextAccounts` | src/lockfree.rs:219-243 | every step keeps a thread's calls returned and running equal to the calls it made, with buffer, size and alignment |
| `LockFreeBufferCalls.EveryCallIsAccountedFor` | src/lockfree.rs:219-373 | in every interleaving, thread by thread and in order, the calls returned and the one running are the calls made, with their buffers, sizes and alignments |
| `LockFreeBufferAnswers.SlabServesIff` | src/lockfree.rs:84-98 | a slab serves a request exactly when an aligned place is left in it, at the least aligned offset, and moves just past it |
| `LockFreeBufferAnswers.StartMeaning` | src/lockfree.rs:219-225 | a request fails at once exactly when it is larger than 1024 bytes |
| `LockFreeBufferAnswers.TrySlabMeaning` | src/lockfree.rs:286-314 | the fast path grants exactly when the slab is of this buffer and the generation read and has a place, at the least aligned offset; a foreign slab is dropped; otherwise the call goes on, or fails if the buffer has no memory |
| `LockFreeBufferAnswers.LoadMeaning` | src/lockfree.rs:313-330 | the refill gives up exactly when less than a block is left, where a block is the least multiple of 64 that is at least 256 bytes and holds the request |
| `LockFreeBufferAnswers.ExchangeMeaning` | src/lockfree.rs:349-370 | the exchange wins exactly when the offset is the one loaded, and then claims exactly one block from there |
| `LockFreeBufferAnswers.InstallMeaning` | src/lockfree.rs:354-366 | the whole block becomes the slab and serves the request that claimed it exactly when it has an aligned place for it, at the least one |
| `LockFreeBufferAnswers.EveryGrantAnswersACall` | src/lockfree.rs:219-243 | in every interleaving each grant answers exactly one call, in order, with its buffer, size and alignment; hits are the calls served since the last reset and misses the others, an exhausted buffer counted twice |
| `LockFreeBufferAnswers.ContentionIsLosses` | src/lockfree.rs:349-370 | the contention counter is the number of exchanges lost since the last reset |
| `LockFreeBufferLoop.LoopStep` | src/lockfree.rs:315-371 | the loop count a thread's position stands for goes up by one with each of its loads and with nothing else |
| `LockFreeBufferLoop.LoopOkStep` | src/lockfree.rs:349-370 | until a reset of the buffer, every lost exchange means that the shared offset has moved on by at least 256 bytes |
| `LockFreeBufferLoop.RefillLeavesWithin17` | src/lockfree.rs:315-371 | between resets of its buffer and whatever the schedule, a thread begins at most 17 iterations of the refill loop: after 16 loads inside it, the next load leaves it |
| `LockFreeBufferLedger.NextKeepsLedgers` | src/lockfree.rs:430-478 | every action keeps the counters of every buffer balanced, counting blocks claimed but not yet installed |
| `LockFreeBufferLedger.RunKeepsLedgers` | src/lockfree.rs:430-478 | in every interleaving the ledgers balance |
| `LockFreeBufferLedger.QuiescentLedger` | src/lockfree.rs:219-243 | since the last reset of a quiescent buffer, hits equal served allocations, and allocations equal hits plus claimed blocks plus oversize requests plus blocks of another era; there are none of the last kind if every reset was completed while the buffer was quiescent |
| `LockFreeBufferResets.StepIsSafeIffGuarded` | src/lockfree.rs:219-373 | in every reachable state, everything that can follow a step is safe if and only if the step is not a read of the generation for a block claimed since a store of zero whose increment is still to come, nor an increment while a thread holds a block of an earlier era whose generation it has not read or is about to be served from a block or slab of the generation it has read |
| `LockFreeBufferResets.QuietRunIsSafe` | src/arena.rs:767-771 | every interleaving of the code, whatever its steps, in which no call is under way on a buffer between the two stores of its resets obeys the guards and is safe throughout |
| `LockFreeBufferResets.UnguardedIsUnsafe` | src/lockfree.rs:286-366 | after any step that breaks the condition, some continuation grants a block of another era |
| `LockFreeBufferResets.HarmfulResetOverlaps` | src/lockfree.rs:263-264 | an uninterrupted reset that finds a thread about to be served from before it, and asking for bytes, lets the same bytes be granted twice in the new generation |
| `LockFreeBufferResets.OffGrantOverlaps` | src/lockfree.rs:219-373 | once bytes of another era have been granted, a bystander's ordinary requests reach the same bytes |
| `LockFreeBufferResets.RequestBetweenStores` | src/lockfree.rs:263-264 | a request whose block is claimed between the two stores of a reset can be granted the bytes at the offset under the old generation, whatever was granted there before |
| `LockFreeBufferResets.ResetDuringClaimOverlaps` | src/lockfree.rs:349-366 | for any two threads and any buffer at the start: one wins the exchange, the other resets the buffer, both stores, and then two grants overlap |
| `LockFreeBufferResets.RequestDuringResetOverlaps` | src/lockfree.rs:263-264 | for any two threads and any buffer at the start: one is granted the first 1024 bytes, the other begins a reset of the idle buffer, and between the two stores the first is granted the same bytes again in the same generation |
| `LockFreePool.Conservation` | src/lockfree.rs:604-678 | in every history of a stack, values pushed are values popped plus values stacked |
| `LockFreePoolSafety.NoDanglingNode` | src/lockfree.rs:604-678 | apart from the read of `next` in a pop, no step touches a freed node |
| `LockFreePoolSafety.PushWins` | src/lockfree.rs:657-671 | a winning push publishes a node holding its argument on top and takes effect at that instant |
| `LockFreePoolSafety.PopWins` | src/lockfree.rs:611-630 | a winning pop takes the top node, whatever a read of a freed node returned before |
| `LockFreePoolSafety.PopFinishKeepsInv` | src/lockfree.rs:631-637 | the pop returns the value it took, frees the node and leaves the stack and every other thread's node alone |
| `LockFreePoolSafety.NextKeepsInv` | src/lockfree.rs:604-678 | every step of every thread keeps the stack invariant |
| `LockFreePoolSafety.RunKeepsInv` | src/lockfree.rs:604-678 | every state of every interleaving satisfies it |
| `LockFreePoolSafety.EveryInterleavingIsAStack` | src/lockfree.rs:604-678 | every interleaving is an atomic last-in first-out stack: each finished call has its own event inside its interval with its own argument or result, and every event is that of a finished call or of a pop about to return |
| `LockFreePoolAccounts.NextBalanced` | src/lockfree.rs:604-678 | every step keeps arguments of pushes equal to pushed values, and popped values equal to results of pops plus values held by pops about to return |
| `LockFreePoolRuns.EveryCallIsAccountedFor` | src/lockfree.rs:604-678 | thread by thread and in order, the calls returned and the one running are the calls made, with their arguments |
| `LockFreePoolRuns.ValuesAreConserved` | src/lockfree.rs:604-678 | in every interleaving, the values given to pushes that have returned are exactly the values returned by pops, held by pops about to return, and still stacked |
| `LockFreePoolCounters.CountersMeaning` | src/lockfree.rs:604-678 | in every interleaving hits are the pops that got a value, misses the pops that found nothing, and contention the exchanges lost |
| `LockFreePoolRecycling.RecyclingIsSafeIffUntargeted` | src/lockfree.rs:604-678 | in every reachable state with another idle thread, everything that can follow a push into the address of a freed node is an atomic stack if and only if no pop that has read that address as the head has its exchange still to try |
| `LockFreePoolRecycling.TooSoonUnlinks` | src/lockfree.rs:611-630 | otherwise, whether or not that pop has read the link yet, its exchange can succeed and cut a pushed node off the stack |
| `LockFreePoolRecycling.FreedWhileRead` | src/lockfree.rs:604-678 | a run from an empty pool, for any three threads, after which the address of the freed node must not be used again yet |
| `LockFreePoolSafety.BelowIsNegation` | src/lockfree.rs:440-458 | the `allocations` counter of a pool is minus the number of stacked values modulo 2^64 |
| `LockFreePoolSafety.QuiescentHeapIsStack` | src/lockfree.rs:691-711 | when no call is running, the live nodes are exactly the stacked ones |
| `LockFreePoolSafety.PoolInner.Drop` | src/lockfree.rs:691-711 | the destructor's walk terminates, frees each remaining node exactly once in stack order, drops its value and leaves nothing |
| `ArenaState.RewindChunks` | src/core.rs:444-459 | chunks before the target are untouched, the target chunk gets the saved offset, later ones are emptied |
| `ArenaState.FitIsLeast` | src/core.rs:145-163 | a chunk serves a request exactly when some aligned offset at or above the bump position has room for it, and then at the least one |
| `ArenaState.AllocatesAtLeast` | src/arena.rs:563-587 | a request that the current chunk has room for starts at its least aligned offset and moves only that chunk's bump position and the counters, by its size and by one |
| `ArenaState.NewChunkIsLeast` | src/core.rs:125-143 | a chunk is made exactly for a non-zero request with a multiple of 64 at or above it among the valid sizes, given memory, and has the least such capacity |
| `ArenaState.GrowthIsTight` | src/arena.rs:992-998 | a grown chunk is 4096 bytes doubled some number of times, at most 16 MiB; it holds every request up to 16 MiB and is 4096 bytes or less than twice the request |
| `ArenaState.AllocateSucceedsIff` | src/arena.rs:563-620 | a non-empty request succeeds exactly when some aligned offset of the current chunk has room for it or, given memory, it is at most 16 MiB |
| `ArenaState.GrownAllocation` | src/arena.rs:588-619 | a request that does not fit is served from the start of one new last chunk |
| `ArenaRuns.RetainIsPrefix` | src/core.rs:461-463 | on a stack in order, `retain` keeps exactly the prefix older than the target |
| `ArenaRuns.AllocateKeepsInv` | src/arena.rs:445-621 | an allocation keeps the run invariant, also when it grows or aborts |
| `ArenaRuns.OversizeAborts` | src/arena.rs:588-619 | a request over 16 MiB that does not fit adds one empty chunk and then aborts |
| `ArenaRuns.RewindKeepsInv` | src/core.rs:432-497 | a rewind to a live checkpoint passes its assertions, keeps the invariant and makes `bytes_used` the used bytes |
| `ArenaRuns.PopIsARewind` | src/arena.rs:778-786 | every stacked checkpoint is live, so a pop of a non-empty stack is a rewind to its top |
| `ArenaRuns.ResetsKeepInv` | src/arena.rs:637-726 | both resets keep the invariant |
| `ArenaRuns.StepKeepsInv` | src/arena.rs:445-803 | every operation keeps the invariant |
| `ArenaRuns.RunKeepsInv` | src/arena.rs:445-803 | every state of every run satisfies it |
| `ArenaRuns.RewoundHistory` | src/core.rs:485-496 | a rewind leaves exactly the allocations that were live when the checkpoint was taken, and their number is the one the checkpoint recorded |
| `ArenaRuns.RoundingIsExact` | src/core.rs:149-151 | in every run and for every valid layout, the rounding expression is the least aligned offset in every chunk and the end of the block fits the word |
| `ArenaRuns.EveryRunIsSafe` | src/core.rs:125-175 | in every run live blocks are disjoint, aligned, inside the used part of an existing chunk, chunks above the current one are empty, `allocation_count` is the number of live allocations, `bytes_used` is at most the used bytes, and the checkpoint stack is ordered below the bump position |
| `ArenaRuns.PointersAreAligned` | src/core.rs:131-139 | addresses are aligned as requested for power-of-two alignments up to the 64-byte chunk base |
| `ArenaRuns.BytesUsedExactAfterRewind` | src/core.rs:485-496 | right after a rewind or a pop `bytes_used` is the sum of chunk usage |
| `ArenaRuns.PopPanicsIffEmpty` | src/arena.rs:778-786 | `pop_and_rewind` panics exactly on an empty stack |
| `ArenaRuns.IdsAreNeverReused` | src/core.rs:405-430 | in every run, through rewinds, clears and resets, later checkpoints have larger ids |
| `ArenaReplay.StepCoupled` | src/core.rs:337-512 | every operation answers as an ideal arena whose checkpoints are copies, up to chunk names, and stays coupled to it |
| `ArenaReplay.RewindCoupled` | src/core.rs:432-497 | a rewind does to the real arena what putting the copy back does to the ideal one, with spare chunks left empty |
| `ArenaReplay.AllocateCoupled` | src/arena.rs:563-620 | allocation and growth agree with the ideal arena in outcome, offset and capacity |
| `ArenaUndo.Indistinguishable` | src/core.rs:337-512 | arenas coupled to the same ideal arena allow and answer every operation sequence alike |
| `ArenaUndo.RewindIsReplay` | src/core.rs:405-497 | after any operations that keep a checkpoint live, rewinding to it gives every later operation sequence the same answers, offsets and growth capacities as right after it was taken, despite spare chunks, unless a non-empty checkpoint stack was cleared in between |
| `ArenaUndo.RewindIsReplayIff` | src/core.rs:405-497 | it does so for all later operation sequences if and only if the stack was empty at the checkpoint or was not cleared since |
| `ArenaUndo.ClearedIsNotRestored` | src/arena.rs:800-803 | otherwise the next pop panics, which it did not right after the checkpoint |
| `ArenaUndo.ClearedExample` | src/arena.rs:800-803 | a run of a push and a checkpoint, then a clear and a rewind to the checkpoint, after which a pop panics |
| `ArenaUndo.PopIsReplay` | src/core.rs:499-512 | the same for a pushed checkpoint that is popped when it is on top |
| `ArenaScopes.RunsAreGood` | src/core.rs:405-512 | every state of every run is a well-formed start for scopes: its pushed checkpoints are spent and can be rewound to |
| `ArenaScopes.CallIsStep` | src/arena.rs:145-200 | a program of one call does what the operation of a run does, for allocation, checkpoint, push, clear and shrink |
| `ArenaScopes.PanicSkipsPop` | src/arena.rs:755-786 | a panic inside a push/pop block ends it at once: nothing after it happens, and the pushed checkpoint and what was allocated stay |
| `ArenaScopes.ExecOnward` | src/arena.rs:145-200 | every structured program that does not abort leaves a well-formed arena whose first chunk is the same one, whatever it resets, clears or shrinks |
| `ArenaScopes.RewindRestores` | src/core.rs:432-497 | rewinding to the checkpoint of a state whose lower chunks and stack have been kept restores that state |
| `ArenaScopes.RewindAnchored` | src/core.rs:432-497 | a rewind to any checkpoint that drops nothing below the current chunk of a base state, nor a checkpoint on its stack, keeps both |
| `ArenaScopes.ExecAnchored` | src/arena.rs:145-200 | every structured program that resets only such scopes, and clears, crosses blocks or shrinks only where there is nothing to lose, keeps both, finished or unwinding |
| `ArenaScopes.StackKept` | src/arena.rs:755-786 | a program that neither clears, shrinks nor resets an enclosing scope leaves the checkpoint stack it found, and nothing on top if every push has its pop |
| `ArenaScopes.ScopeRestores` | src/arena.rs:970-976 | leaving a scope, normally or by a panic, restores bump position, chunk usage, checkpoint stack and allocation count for every such body; its own scope and those inside it may be reset in any case |
| `ArenaScopes.PushPopRestores` | src/arena.rs:755-786 | so does a push/pop block whose body ends normally, pops what it pushes, and neither clears, shrinks nor resets a scope around the block |
| `ArenaScopeLimits.ScopeRestoresIff` | src/arena.rs:145-200 | for every body, inside any open scopes: the scope's own rewind panics exactly when the place of its entry is gone, and the entry state is restored exactly when the body leaves the chunks below that place and the stack as they were |
| `ArenaScopeLimits.EveryScopeRestoresIff` | src/arena.rs:188-200 | a scope restores its entry state, whatever a body of a given kind does, if and only if every enclosing scope the body may reset was opened in the same or a later chunk, or in a full one with only empty chunks up to the entry, and after all stacked checkpoints; the stack is empty if the body may clear it or cross a block; and there is one chunk besides if it may shrink |
| `ArenaScopeLimits.ResetSpoils` | src/arena.rs:188-192 | for every enclosing scope that does not meet this, a reset of it, with one byte allocated at most, makes a body after which the entry state is not restored |
| `ArenaScopeLimits.EveryBlockRestoresIff` | src/arena.rs:755-786 | a push/pop block whose body ends normally ends normally in its entry state, whatever a body of a given kind does, if and only if the kind allows no reset of an enclosing scope, no unmatched push, no clear and no shrink |
| `ArenaScopeLimits.ShrinkInScope` | src/arena.rs:637-656 | a scope whose body shrinks the arena, at any moment, restores its entry state if and only if the stack was empty at the entry and the body leaves the chunks, as many and as large, used as they were below the place of the entry |
| `ArenaScopeLimits.ScopeRestoresBytesUsedIff` | src/core.rs:485-491 | a scope that restores its entry state restores `bytes_used` exactly when it equalled the used bytes on entry |
| `ArenaScopeExamples.InnerScopeNotRestored` | src/arena.rs:188-192 | a run in which an inner scope resets the outer one and does not restore its entry state |
| `ArenaScopeExamples.ResetOfOuterScope` | src/arena.rs:188-200 | what it leaves: the first chunk empty, the second used, two allocations counted |
| `ArenaScopeExamples.BytesUsedNotRestored` | src/core.rs:485-491 | a run of two allocations after which an empty scope changes `bytes_used` from 9 to 16 |
| `ArenaScopeExamples.ShrinkPanics` | src/arena.rs:637-656 | a scope entered in the second chunk that shrinks the arena panics at its end |
| `ArenaScopeExamples.ShrinkAndGrowReturns` | src/arena.rs:637-656 | one that shrinks and then grows the arena again does not, and does not restore its entry state |
| `ArenaClass.NextChunkCapacity` | src/arena.rs:992-998 | the doubling loop, with its final clamps, computes the growth function |
| `ArenaClass.Chunk.Create` | src/core.rs:125-143 | a chunk exists exactly for a non-zero capacity whose rounding is a valid size, given memory; its capacity is the least multiple of 64 at or above the request |
| `ArenaClass.Chunk.Allocate` | src/core.rs:145-175 | the loop returns the least aligned start with room and bumps past the block, or changes nothing when no aligned start has room |
| `ArenaClass.Chunk.SetUsed` | src/core.rs:193-195 | only the bump pointer changes |
| `ArenaClass.ArenaInner.Allocate` | src/core.rs:337-361 | the new state and place are those of the state function; other chunks are untouched |
| `ArenaClass.ArenaInner.AddChunk` | src/core.rs:363-376 | a fresh chunk is appended and made current, or nothing changes |
| `ArenaClass.ArenaInner.TakeCheckpoint` | src/core.rs:405-430 | the checkpoint records the bump position, the count and a fresh id; only the next id changes |
| `ArenaClass.ArenaInner.PushCheckpoint` | src/core.rs:499-503 | the checkpoint goes on the stack |
| `ArenaClass.ArenaInner.RewindToCheckpoint` | src/core.rs:432-497 | the loops over chunks and stack compute the rewound state; a failed assertion changes nothing |
| `ArenaClass.ArenaInner.PopAndRewind` | src/arena.rs:778-786 | pops and rewinds, or panics on an empty stack |
| `ArenaClass.ArenaInner.Reset` | src/arena.rs:696-726 | every chunk is emptied; stack and counters are cleared |
| `ArenaClass.ArenaInner.ResetAndShrink` | src/arena.rs:637-656 | only the first chunk remains, emptied |
| `ArenaClass.ArenaInner.ClearCheckpoints` | src/arena.rs:800-803 | only the stack changes |
| `ArenaClass.ArenaInner.AllocateRaw` | src/arena.rs:445-621 | zero-sized, fitting, growing and aborting requests give the state and outcome of the state function |
| `VirtualMemory.RoundUpIsMask` | src/virtual_memory.rs:73-74 | the page rounding is the mask expression, wrap-around included |
| `VirtualMemory.EndNeverWraps` | src/virtual_memory.rs:253-255 | for every valid layout, the end of a block and its rounding to a page stay inside the word |
| `VirtualMemory.ReserveSize` | src/virtual_memory.rs:20-66 | a new region reserves the least number of whole pages that holds the request, or 4 GiB for anything larger |
| `VirtualMemory.NewRegionIsSolid` | src/virtual_memory.rs:20-66 | a region exists exactly for a non-zero size when the system agrees, with nothing committed and the least reservation |
| `VirtualMemory.CommitMeaning` | src/virtual_memory.rs:68-124 | a commit succeeds exactly when the system agrees and its range, in the least whole pages, ends inside the reservation; it makes exactly those pages accessible, and raises the mark to its end |
| `VirtualMemory.DecommitMeaning` | src/virtual_memory.rs:126-189 | a decommit succeeds exactly when the system agrees, it starts inside the reservation and ends at or below the mark; it takes exactly those pages away, and lowers the mark only when it ends there |
| `VirtualMemory.CommitKeepsSolidIff` | src/virtual_memory.rs:68-124 | after any successful commit, everything below the mark is accessible exactly when the pages skipped before the range already were |
| `VirtualMemory.DecommitKeepsSolidIff` | src/virtual_memory.rs:126-189 | after any successful decommit, everything below the mark is accessible exactly when the range ended at the mark or covered no page |
| `VirtualMemory.SolidIffCareful` | src/virtual_memory.rs:68-189 | where exactly the committed pages are accessible, a successful commit or decommit keeps everything below the mark accessible if and only if the commit starts at or below the mark, or the decommit ends at it |
| `VirtualMemory.CarefulRunIsTight` | src/virtual_memory.rs:20-196 | in every run of a region by such calls and successful resets, exactly the committed pages are accessible |
| `VirtualMemory.CommitLeavesAHole` | src/virtual_memory.rs:68-124 | committing the third page of a new region leaves two inaccessible pages below the mark |
| `VirtualMemory.DecommitLeavesAHole` | src/virtual_memory.rs:126-189 | decommitting the first of two committed pages leaves an inaccessible page below the mark |
| `VirtualMemory.ResetReleases` | src/virtual_memory.rs:191-196 | a reset leaves nothing committed, also when the system call fails; when it works every committed page is released |
| `VirtualMemory.CommitFromMark` | src/virtual_memory.rs:262-270 | committing from the mark works exactly inside the reservation, given the system, and stops at the page holding the end |
| `VirtualMemory.NewVChunkKeepsInv` | src/virtual_memory.rs:229-241 | a chunk exists exactly when both calls succeed on a non-zero capacity; its first 64 KiB or all of it are committed |
| `VirtualMemory.AllocateMeaning` | src/virtual_memory.rs:249-287 | exactly when an allocation succeeds, where it starts, and how far it moves the committed mark |
| `VirtualMemory.StepKeepsInv` | src/virtual_memory.rs:249-292 | allocations and resets keep the chunk invariant whatever the system answers |
| `VirtualMemory.RunKeepsInv` | src/virtual_memory.rs:229-292 | every state of every sequential run satisfies it |
| `VirtualMemory.EveryByteIsCommitted` | src/virtual_memory.rs:229-292 | every byte of every live block lies in an accessible committed page and inside the capacity; blocks are disjoint; the committed size is page-aligned within the reservation |
| `VirtualMemoryClass.VirtualMemoryRegion.Reserve` | src/virtual_memory.rs:20-66 | a zero size or a failed reservation gives no region; otherwise it reserves the least whole pages, at most 4 GiB, as the state function does |
| `VirtualMemoryClass.VirtualMemoryRegion.CommitRange` | src/virtual_memory.rs:68-124 | the fields, accessible pages and result are those of the state function |
| `VirtualMemoryClass.VirtualMemoryRegion.DecommitRange` | src/virtual_memory.rs:126-189 | the same for decommit, with its error cases |
| `VirtualMemoryClass.VirtualMemoryRegion.Reset` | src/virtual_memory.rs:191-196 | the mark goes to zero whatever the decommit returns |
| `VirtualMemoryClass.VirtualChunk.Create` | src/virtual_memory.rs:229-241 | the chunk of the state function, or none when a call fails |
| `VirtualMemoryClass.VirtualChunk.AllocateBlock` | src/virtual_memory.rs:249-287 | the fields and result are those of the state function, also after a failed commit or exchange |
| `VirtualMemoryClass.VirtualChunk.Reset` | src/virtual_memory.rs:289-292 | bump pointer and region are reset together |
| `SlotPool.AllocKeepsOk` | src/lib.rs:215-230 | an allocation takes an empty slot, leaves all others alone and keeps the free list exact |
| `SlotPool.PutBackKeepsOk` | src/lib.rs:252-262 | giving a slot back keeps the free list duplicate-free and exactly the empty slots, and the counter cannot underflow |
| `SlotPool.ReusesLastFreed` | src/lib.rs:215-262 | the slot given back last is handed out next, as if its value had been replaced |
| `SlotPool.PutBackUndoesAlloc` | src/lib.rs:215-262 | dropping a new handle at once undoes the allocation, except that an added slot stays free |
| `SlotPool.FreshPoolSlots` | src/lib.rs:199-230 | a new pool hands out its slots from the last to the first and then adds one at a time at the end; each holds the value put into it |
| `SlotPool.StepKeepsInv` | src/lib.rs:215-293 | allocation, writing through a handle and dropping it keep handles and occupied slots in one-to-one correspondence |
| `SlotPool.RunKeepsInv` | src/lib.rs:199-293 | every state of every run satisfies the invariant |
| `SlotPool.EveryRunIsSound` | src/lib.rs:199-293 | the free list is duplicate-free and exactly the empty slots, in use plus free is the capacity, live handles have distinct slots, and the capacity is the larger of the initial one and the peak number of handles |
| `SlotPool.OthersLeaveItAlone` | src/lib.rs:265-293 | a handle keeps its slot and reads its own value through any operations on other handles |
| `SlotPoolClass.Pool.constructor` | src/lib.rs:199-213 | the loop lists every slot as free, in order |
| `SlotPoolClass.Pool.AllocSlot` | src/lib.rs:215-230 | the fields and index are those of the state function, and the pool stays valid |
| `SlotPoolClass.Pool.PutBackSlot` | src/lib.rs:252-262 | the same for giving back, with no effect on an empty slot |
| `SlotPoolClass.Pool.Stats` | src/lib.rs:240-250 | the reported figures satisfy in use plus free equals capacity |
| `ExprParserProofs.PrimAt` | examples/parser_expr.rs:74-89 | a primary standing in the input is parsed to its tree and consumed exactly |
| `ExprParserProofs.MulTailAt` | examples/parser_expr.rs:53-72 | the product loop folds the factors that follow to the left and stops where they end |
| `ExprParserProofs.AddAt` | examples/parser_expr.rs:32-51 | a sum of the grammar standing in the input, its operators given as characters, is parsed to its tree |
| `ExprParserSoundness.AddSound` | examples/parser_expr.rs:32-51 | whenever parsing succeeds, the consumed text is a sum of the grammar with that tree |
| `ExprParserSoundness.ParseIffDerives` | examples/parser_expr.rs:28-121 | parsing returns a tree and a position exactly when the text up to there derives that tree in the two-level grammar, which names its operators, digits and white space as characters |
| `ExprParserSoundness.ParseStops` | examples/parser_expr.rs:34-48 | it stops at the end of input or at a byte other than blank, tab, line feed, plus, minus, star and slash |
| `ExprParserSoundness.Unambiguous` | examples/parser_expr.rs:28-121 | one text has one tree |
| `ExprParserSoundness.TextParses` | examples/parser_expr.rs:28-121 | every text of the grammar is parsed to its tree and consumed completely, trailing white space included |
| `ExprPrinter.RoundTrip` | examples/parser_expr.rs:28-121 | every tree with literals up to 2^63 - 1, printed with minimal parentheses and any white space between tokens, parses back to exactly that tree |
| `ExprPrinter.FewestA` | examples/parser_expr.rs:28-121 | no text of the grammar with the same tree has fewer parentheses than the printed one |
| `ExprPrinter.EvalRoundTrip` | examples/parser_expr.rs:123-138 | printing and parsing preserves the value of an expression, or its panic |
| `ExprMeaning.Precedence` | examples/parser_expr.rs:32-72 | for all literals, operators and white space, three operands are grouped with star and slash tighter than plus and minus, and otherwise to the left |
| `ExprMeaning.EvalMeaning` | examples/parser_expr.rs:123-138 | an operator returns v exactly when its operands evaluate, v is in the 64-bit range, and v is their sum, what added to the right one gives the left, the repeated sum, or the quotient whose remainder is smaller than the divisor with the sign of the dividend |
| `ExprMeaning.EvalPanicsIff` | examples/parser_expr.rs:123-138 | evaluation panics exactly when an operand panics, the operator is none of the four, the divisor is zero or the exact value is out of range |
| `ExprMeaning.QuotientIsUnique` | examples/parser_expr.rs:133 | at most one quotient has such a remainder |
| `ExprMeaning.SubUndoesAdd` | examples/parser_expr.rs:130-131 | taking either operand from a sum that does not overflow leaves the other |
| `ExprMeaning.MulIsRepeatedSum` | examples/parser_expr.rs:132 | a product with a literal is the repeated sum, overflow included |
| `ExprMeaning.ExampleIsFifteen` | examples/parser_expr.rs:140-146 | the example of the source is parsed as it reads and evaluates to 15 |
| `ExprParserClass.Parser.SkipWhite` | examples/parser_expr.rs:116-120 | the loop stops where the skipping function does |
| `ExprParserClass.Parser.ReadNumber` | examples/parser_expr.rs:91-100 | the loop reads the longest run of digits and panics beyond the largest 64-bit integer |
| `ExprParserClass.Parser.ReadPrimary` | examples/parser_expr.rs:74-89 | the same result, panic and position as the parsing function, and termination |
| `ExprParserClass.Parser.ReadMul` | examples/parser_expr.rs:53-72 | the same for the product loop |
| `ExprParserClass.Parser.ReadAddSub` | examples/parser_expr.rs:32-51 | the same for the sum loop |
| `ExprParserClass.Parser.ReadExpr` | examples/parser_expr.rs:28-30 | the same for whole expressions; remaining input, then grammar level, decreases |
| `GraphBfs.EnqueueKeepsSearching` | examples/graph_pool.rs:20-25 | enqueueing an unseen neighbour keeps distances in order and at most one apart in the queue |
| `GraphBfs.SearchIsComplete` | examples/graph_pool.rs:17-26 | when every found node is expanded, every walk from the start ends in a found node by a walk no longer |
| `GraphBfs.SearchMeaning` | examples/graph_pool.rs:17-26 | the found indices are exactly the reachable ones, each at its shortest distance |
| `GraphBfs.FirstsMeaning` | examples/graph_pool.rs:20-25 | the list of first occurrences has every element once, ordered by where it first stands |
| `GraphBfs.TrailInOrder` | examples/graph_pool.rs:17-26 | at every stage of the search, what is found is, in order, the first occurrences in the start and the neighbour lists of the nodes expanded |
| `GraphBfs.Expand` | examples/graph_pool.rs:20-25 | the inner loop marks and enqueues exactly the unseen neighbours, each at its first occurrence and in order, and fails exactly when one is out of range |
| `GraphBfs.Bfs` | examples/graph_pool.rs:9-29 | the search terminates; it panics exactly when something reachable is out of range, and otherwise visits the reachable indices, each once, in non-decreasing shortest distance and in the order in which neighbour lists of earlier visits first name them |

## Left out

- Memory orderings weaker than sequential consistency, buffer zeroing, prefetch hints, buffer moves and address reuse.
- Interleavings inside the tail of a lock-free buffer reset: zeroing its statistics and dropping the resetting thread's slab happen with the increment of the generation.
- The lock-free generation counter wrapping at 2^64; it is unbounded here, and buffer identities are unique for a run.
- `RecyclingIsSafeIffUntargeted`: the half that shows a recycled address to be unsafe needs a second idle thread, whose push comes in between.
- `EveryScopeRestoresIff` and `EveryBlockRestoresIff`: the half that shows a reset to spoil the entry state needs the place of the scope reset to be there; after an earlier shrink such a reset may panic instead.
- Bodies of scopes that call the unsafe `rewind_to_checkpoint` with a checkpoint of no scope; `ArenaUndo` treats such rewinds outside scopes.
- `ClaimServesItsRequest` and pointer alignment beyond 64 bytes: the buffer and chunk bases guarantee no more.
- `Chunk::new` for capacities above 2^64 - 64, where rounding up would wrap.
- Rewinding with the `lockfree` feature on, which resets the whole lock-free buffer and so does not keep earlier buffer allocations.
- `ArenaInner::reset` in `src/core.rs`, which nothing in the default arena calls; `Arena::reset` is the one modelled.
- The `bytes_allocated` counter, which records unrounded capacities and is zeroed while chunks are kept.
- Concurrent use of one virtual chunk, whose commit step is not atomic; runs are sequential.
- Partial effects of a failing system call; a call either takes effect or leaves the pages alone.
- Destructors of pooled values that call back into the slot pool.
- Overflow in `eval` for builds without overflow checks; it is a panic here, as in a debug build.
- `src/debug.rs`, `src/thread_local.rs`, `src/slab.rs`, `MemoryPool`, `src/legacy_arena.rs`, and the second `Pool` and `SyncArena` of `src/arena.rs`.
- Typed allocation helpers, builders, feature bundles, diagnostics, error formatting, benches and the other examples: they only pass requests on to the code modelled here.
