# Verified models of pos3ql

A Dafny model of the parts of the pos3ql database server whose correctness rests on invariants over
whole runs. Each part has pure functions that say what every operation computes, lemmas about every
run of them, and, where the server updates fields in place, a class whose methods are proved equal to
those functions.

- The two-ended bump arena with nested regions, durable tail, retained handles, marks and an intern
  cache (`ArenaCore`, `ArenaInvariant`, `ArenaSteps`, `ArenaRuns`, `ArenaSafety`, `ArenaRoom`,
  `ArenaMachine`), its copy-on-write list (`ArenaList`) and its in-place stable sort (`StableSort`).
- The PCG32 generator (`Pcg32`).
- The resumable mark and sweep collector over the object store, with its one-request I/O and paged
  listing (`GcStore`, `GcKeep`, `GcCore`, `GcInvariant`, `GcSteps`, `GcRuns`, `GcProgress`, `GcAnswers`,
  `GcReads`, `GcMachine`).
- The query scheduler and commit barrier, down to the bytes each connection sends (`Leases`,
  `DispatchQueue`, `SendBuffer`, `ServerCore`, `ServerInvariant`, `ServerSteps`, `ServerOutput`,
  `ServerRuns`, `ServerExamples`, `ServerWake`, `ServerGate`, `ServerEffects`, `ServerMachine`).
- The shared writer-ownership probe (`WriterProbe`, `ProbeHistory`).
- Streaming SHA-256 and HMAC (`Sha256`, `Sha256Facts`) and the base64 decoder (`Base64`).
- What they share: optional values (`Options`), bytes, word sizes and powers of two (`Words`).

The engine, the connections, the object store and the clock are oracles: functions from a call counter
to an arbitrary answer, over which every theorem is quantified.

Where the code does not do what one would expect of it, the model follows the code:

- `stable_sort_via` narrows indices to 32 bits. It sorts all inputs of a length if and only if the
  length is at most 2^32 (`StableSorting.SortsExactlyIndexable`).
- PCG32 drops the top bit of the stream number, so streams that differ only there are one stream
  (`Prng.StreamsCollide`).
- Output of a dispatch can leave before its LSN is durable. `ServerRuns.CommitBarrier` says exactly
  when. It is sent past a response that is held back, on a writable event, by a closing answer or by a
  dispatch that streams. Or the dispatch that streams wrote it and is not durable itself. Or its response
  was replaced before, or an error left it behind. Otherwise nothing leaves early.
- A simple query whose result fills the send buffer empties that buffer to the socket while it runs, and
  with it the answers to earlier messages of the same read (`ServerRuns.StreamReaches`, `DrainReaches`).
- `ServerExamples.EarlyAnswer`, `StreamedAnswer`, `OvertakenAnswer`, `ReplacedAnswer` and `ClippedAnswer`
  are runs of these kinds, with a dispatch that writes the journal without staging a commit, as a
  non-transactional logical message does. A commit that is staged parks its connection instead. A simple
  query that parks takes back what it has written; an extended-protocol commit leaves in the buffer what
  earlier messages of the read wrote, held back with its response.
- A response that waits at the barrier is replaced if and only if a read runs meanwhile, after interest
  was brought in line with a connection that is willing to read (`ServerRuns.ReplacedExactly`). Its
  bytes stay in the buffer and leave with the next answer.
- The mark an error truncates to is taken before the dispatch runs. Appending moves unsent bytes to the
  front of the buffer, and streaming empties it, so the mark can be stale: the error then leaves bytes of
  its answer behind, or the assertion of the truncation fails. `ServerRuns.TakenBackExactly` says when,
  after every run, and `ServerRuns.ReadMoves` at the read. It never removes output ahead of its own.
- Slot generations are 32-bit. A socket event addressed to a connection is taken for a later one on the
  same slot if and only if a positive multiple of 2^32 connections have left the slot in between
  (`ServerGate.StaleIgnored`); `ServerGate.StaleTaken` is such a run.
- A probe result completed before a fence is still given out after it, as it was
  (`WriterProbes.AnswerKnowsFence`).

`dafny verify dfyconfig.toml` checks the project.

## Model

| member | source | states |
|---|---|---|
| Prng.FullPeriod | src/prng.rs:17-40 | From every state and for every odd increment the state returns to its start after exactly 2^64 steps and not before. |
| Prng.DoublingJump | src/prng.rs:34-40 | 2^k steps act as one affine map whose multiplier is 1 mod 2^(k+2) and whose shift is an odd multiple of 2^k; proved by induction on k from a multiplier that is 1 mod 4. |
| Prng.MultipleJump | src/prng.rs:34-40 | m 2^k steps move every state by 2^k times a number of the parity of m, so no shorter period exists. |
| Prng.ReachState | src/prng.rs:34-40 | Every state is met within one period from every state. |
| Prng.EvenIncrementKeepsParity | src/prng.rs:23-32 | Why the increment is forced odd: with an even one the low bit never changes. |
| Prng.Assemble | src/prng.rs:34-40 | For every output and every choice of 32 hidden bits there is a state with that output and those bits. |
| Prng.OutputFibre | src/prng.rs:34-40 | Every state is the one assembled from its output and hidden bits, so each of the 2^32 outputs comes from exactly 2^32 states. |
| Prng.OutputArithmetic | src/prng.rs:34-40 | The output in arithmetic: with t the state over 2^59 and y the middle 32 bits of the state xored with itself over 2^18, it is y over 2^t plus y mod 2^t times 2^(32-t): a rotation to the right. |
| Prng.UniformPreimages | src/prng.rs:49-58 | Every residue below the bound has exactly (2^32 - threshold) / bound accepted preimages: no modulo bias. |
| Prng.ThresholdLeast | src/prng.rs:49-58 | The rejected values are 2^32 mod bound many, the fewest that leave a multiple of the bound. |
| Prng.StreamsCollide | src/prng.rs:23-32 | Two stream numbers give the same increment if and only if they agree in their low 63 bits. |
| Prng.Pcg32.constructor | src/prng.rs:23-32 | Seeding is two steps around the seed injection, with the increment of the stream. |
| Prng.Pcg32.NextU32 | src/prng.rs:34-40 | One draw, computed by shifts, xor and the two halves of a rotation, is the output of the old state, and advances it by one step. |
| Prng.Pcg32.NextAtLeast | src/prng.rs:49-58 | The rejection loop ends from every state within one period and stops at the first output that is not rejected. |
| Prng.Pcg32.NextBounded | src/prng.rs:49-58 | The result is the first accepted output modulo the bound; the state has advanced by exactly the draws made. |
| ArenaInvariant.LimitIsTail | src/mem/arena.rs:631-643 | Through any depth of open regions the allocation limit is the root tail seen from the region. |
| ArenaInvariant.PublishFrontier | src/mem/arena.rs:645-654 | Publishing a child frontier moves every ancestor to the same absolute position and no other region. |
| ArenaInvariant.AllocRawTop | src/mem/arena.rs:563-586 | A front allocation succeeds if and only if the region is the innermost one and the aligned block fits below the root tail; it then lies aligned between the published frontier and that tail. |
| ArenaInvariant.AllocKeeps | src/mem/arena.rs:563-586 | A front allocation, successful or not, keeps the arena invariant over all live blocks, regions, intern chains and handles. |
| ArenaInvariant.AllocPersistentKeeps | src/mem/arena.rs:441-454 | So does a durable allocation, from the tail of the owner or, in a child, from its front, which is pinned up to the end of the block. |
| ArenaInvariant.InternKeeps | src/mem/arena.rs:279-324 | So does interning, whether it hits, allocates or fails. |
| ArenaSteps.RetainKeeps | src/mem/arena.rs:473-489 | Retaining a value keeps the invariant, with the new handle bound to the new block. |
| ArenaSteps.ReplaceKeeps | src/mem/arena.rs:500-508 | Replacing a retained value keeps the invariant, with only the value behind that handle changed. |
| ArenaSteps.WriteKeeps | src/mem/arena.rs:182-224 | Writing through a live allocation that no handle owns keeps the invariant: no other block and no handle value changes. |
| ArenaSteps.LiveApart | src/mem/arena.rs:563-616 | Any two live blocks, front or durable, occupy disjoint intervals. |
| ArenaSteps.ChainFollowsFront | src/mem/arena.rs:528-548 | Dropping chain entries above a frontier leaves exactly the entries of the slices that the rewind keeps. |
| ArenaSteps.RewindKeeps | src/mem/arena.rs:511-548 | A rewind ends in the specified state, refused or not, and keeps the invariant with the live blocks cut to those at or below the mark. |
| ArenaRuns.OpenKeeps | src/mem/arena.rs:182-224 | Lending the free middle to a child region keeps the invariant at every depth, also when identities are exhausted. |
| ArenaRuns.CloseKeeps | src/mem/arena.rs:668-673 | Closing a region keeps the invariant, with the live blocks cut to those of the outer regions. |
| ArenaRuns.RecycleKeeps | src/mem/arena.rs:467-471 | Recycling the front keeps the invariant, with the durable blocks and their handles as they were. |
| ArenaRuns.ResetKeeps | src/mem/arena.rs:458-463 | A reset keeps the invariant, with no live block left and a new identity. |
| ArenaRoom.ResetIsFresh | src/mem/arena.rs:458-463 | After a reset the owner is as new: frontier, pins and cache gone, the whole durable tail given back, and the next identity drawn. |
| ArenaRoom.ResetFrees | src/mem/arena.rs:458-463 | So whatever fits the storage is allocated again at once, from the front at its start and durably at its end. |
| ArenaRoom.RecycleFrees | src/mem/arena.rs:467-471 | Recycling changes only the frontier and the cache; a front allocation then succeeds if and only if it fits below the tail. |
| ArenaRoom.FrontAnswer | src/mem/arena.rs:563-586 | A front allocation succeeds if and only if it is asked of the innermost region and ends at or below the owner's tail; then it lies at the first aligned place, and otherwise the error tells request, free bytes and capacity. |
| ArenaRoom.RemainingFits | src/mem/arena.rs:563-586 | The free bytes that an error tells are the most that an unaligned request can be granted. |
| ArenaRoom.DurableAnswer | src/mem/arena.rs:588-616 | A durable allocation of the owner succeeds if and only if its last aligned place below the tail is at or above the frontier, also while regions are open, and moves only the tail; in a child it is a front allocation that is pinned. |
| ArenaRoom.IdentityDrawn | src/mem/arena.rs:56-71 | Identities are drawn in order until they run out, and then none is. |
| ArenaRoom.RetainAnswer | src/mem/arena.rs:473-490 | A value is retained if and only if the region has an identity and the durable allocation succeeds; a failure changes nothing. |
| ArenaRoom.InternAnswer | src/mem/arena.rs:279-324 | An empty slice and one the cache knows cost nothing; another one is stored behind its header if and only if both fit. |
| ArenaRoom.OpenAnswer | src/mem/arena.rs:182-224 | A region opens if and only if it is asked of the innermost one and an aligned byte is left; it gets all that is free, empty, under the next identity. |
| ArenaRoom.OpenCloseRestores | src/mem/arena.rs:182-224 | Opening and closing a region leaves every outer region as it was. |
| ArenaRoom.RewindAnswer | src/mem/arena.rs:528-548 | A rewind is accepted if and only if it is asked of the innermost region with a mark of its identity at or below the frontier, and moves the frontier to the mark or to the pins above it. |
| ArenaRoom.MarkRewinds | src/mem/arena.rs:511-548 | Marking, any sequence of front and interned allocations, and rewinding leaves every region as it was at the mark. |
| ArenaRuns.KeptBytes | src/mem/arena.rs:229-251 | `with_remaining_bytes` leaves exactly the bytes the body produced at the parent frontier, from wherever in the arena or outside it, even when source and destination overlap; keeps every outer block and the durable tail; reclaims the rest of the child; fails if and only if the bytes do not fit below the tail, with the region closed all the same; and cannot fail when they lie in the child. |
| ArenaRuns.ApplyKeeps | src/mem/arena.rs:182-673 | Every operation keeps the invariant. |
| ArenaRuns.ReachableOk | src/mem/arena.rs:146-673 | Every run of every fresh arena keeps it. |
| ArenaSafety.LiveAllocationsSafe | src/mem/arena.rs:182-224 | Over every run: live allocations are in bounds, aligned, pairwise disjoint and hold their contents; each open child publishes its frontier to its parent, and the root tail never drops below the deepest frontier. |
| ArenaSafety.LiveUntilTouched | src/mem/arena.rs:563-673 | No operation moves, changes or discards a live allocation that it does not address. |
| ArenaSafety.RewindFrame | src/mem/arena.rs:511-548 | A rewind to any mark spares the tail, the blocks of outer regions, whatever lies at or below the mark, and every pinned block of the region; a refused rewind spares everything. |
| ArenaSafety.LiveThroughRun | src/mem/arena.rs:511-673 | A live allocation that no operation of a run addresses is, after the whole run, in the same place with the same bytes in memory; durable and retained blocks of a child survive any rewinds. |
| ArenaSafety.HandleReadsBack | src/mem/arena.rs:491-498 | A handle reads back its last stored value from the region generation that issued it, and nothing from any other region. |
| ArenaSafety.HandleValueKept | src/mem/arena.rs:473-548 | The value behind a current handle changes only by storing through it. |
| ArenaSafety.RetainOtherHandle | src/mem/arena.rs:473-489 | Retaining another value never disturbs a current handle. |
| ArenaSafety.HandleSurvives | src/mem/arena.rs:473-548 | Across any run of rewinds, nested regions and tail growth, a handle whose identity is still current reads the value it had. |
| ArenaSafety.HandleRetired | src/mem/arena.rs:458-508 | After a reset, or after its region ended, reading and replacing through a handle are refused by every region in every continuation, even when identities run out. |
| ArenaSafety.RetiredForever | src/mem/arena.rs:56-72 | An identity that is no longer in use is never drawn again. |
| ArenaSafety.ForeignHandleRejected | src/mem/arena.rs:491-508 | A handle of another arena is neither read nor replaced. |
| ArenaSafety.InternAgrees | src/mem/arena.rs:279-324 | The intern cache agrees with a search of all live shared slices of the region, in both directions; a hit has the same type, length and contents and lies below the frontier. |
| ArenaSafety.ChainDescends | src/mem/arena.rs:279-324 | The intern chain has strictly decreasing ends. |
| ArenaMachine.Arena.constructor | src/mem/arena.rs:151-175 | A fresh arena is the empty world over its buffer. |
| ArenaMachine.Arena.Limit | src/mem/arena.rs:631-643 | The loop over enclosing regions computes the allocation limit. |
| ArenaMachine.Arena.Publish | src/mem/arena.rs:645-654 | The loop over enclosing regions moves each frontier as specified. |
| ArenaMachine.Arena.Move | src/mem/arena.rs:229-251 | The overlapping move copies the old bytes of the source. |
| ArenaMachine.Arena.Reserve | src/mem/arena.rs:563-586 | Reserving from the front yields the specified offset or the error with its three sizes. |
| ArenaMachine.Arena.ReserveTail | src/mem/arena.rs:588-616 | Reserving from the tail likewise. |
| ArenaMachine.Arena.Alloc | src/mem/arena.rs:270-276 | The allocation ends in the specified world, with the bytes stored. |
| ArenaMachine.Arena.AllocPersistent | src/mem/arena.rs:441-454 | Likewise for durable storage. |
| ArenaMachine.Arena.Retain | src/mem/arena.rs:473-489 | Likewise, returning the handle. |
| ArenaMachine.Arena.Retained | src/mem/arena.rs:491-498 | Reads the value recorded for the handle exactly when the identity matches. |
| ArenaMachine.Arena.ReplaceRetained | src/mem/arena.rs:500-508 | Stores through the handle exactly when the identity matches. |
| ArenaMachine.Arena.Mark | src/mem/arena.rs:511-516 | A mark records identity and frontier. |
| ArenaMachine.Arena.RewindTo | src/mem/arena.rs:528-548 | Rewinds exactly when the mark is allowed. |
| ArenaMachine.Arena.RecycleFront | src/mem/arena.rs:467-471 | Ends in the specified world. |
| ArenaMachine.Arena.Reset | src/mem/arena.rs:458-463 | Ends in the specified world, which is a new arena under the next identity (`ArenaRoom.ResetIsFresh`). |
| ArenaMachine.Arena.OpenRegion | src/mem/arena.rs:182-224 | Ends in the specified world, or refuses while a region is lent. |
| ArenaMachine.Arena.CloseRegion | src/mem/arena.rs:668-673 | Ends in the specified world. |
| ArenaMachine.Arena.CloseKeepingBytes | src/mem/arena.rs:229-251 | Ends in the specified world, moving the bytes in place or copying them in from outside. |
| ArenaMachine.Arena.AllocInterned | src/mem/arena.rs:279-324 | Ends in the specified world, with the offset of the shared slice. |
| ArenaMachine.Arena.FindShared | src/mem/arena.rs:279-306 | The loop over the chain finds what the specification finds. |
| ArenaLists.ArenaList.constructor | src/mem/arena.rs:731-753 | An empty list with nothing published. |
| ArenaLists.ArenaList.Push | src/mem/arena.rs:755-778 | Appends, or fails for lack of room and changes nothing; a full buffer is replaced by a fresh one of twice the capacity, at least four; every slice published before keeps its contents. |
| ArenaLists.ArenaList.Truncate | src/mem/arena.rs:787-794 | Keeps a prefix; a published buffer is closed to appends there, so published slices keep their contents. |
| ArenaLists.ArenaList.AsSlice | src/mem/arena.rs:800-808 | Returns the contents, records them as published and marks the buffer exposed; an empty slice does neither. |
| ArenaLists.ArenaList.MakeUnique | src/mem/arena.rs:819-842 | Afterwards no published slice shares the buffer; contents are unchanged, also on failure; an unexposed list is left alone. |
| ArenaLists.ArenaList.Edit | src/mem/arena.rs:844-851 | Changes one element of the list and of no published slice. |
| ArenaLists.ArenaList.IntoMutSlice | src/mem/arena.rs:853-862 | Hands out a buffer that no published slice shares. |
| StableSorting.FollowCompletes | src/mem/arena.rs:921-933 | Following a cycle places each of its elements and closes it, whatever cycles are done already. |
| StableSorting.ApplyPermutation | src/mem/arena.rs:914-934 | Applying cycles in place equals result[i] = original[perm[i]] for every permutation. |
| StableSorting.SortIndicesUnique | src/mem/arena.rs:910-913 | An index list is the staged permutation if and only if it is ordered under comparator and index and has the same indices: every correct sort, stable or not, gives the same list. |
| StableSorting.SortViaStable | src/mem/arena.rs:901-936 | With index values for every element the result is a permutation of the input, ordered, with equal elements in original order. |
| StableSorting.WideInputUnsorted | src/mem/arena.rs:910-913 | For every length above the number of index values some input comes out unsorted. |
| StableSorting.SortsExactlyIndexable | src/mem/arena.rs:901-936 | The sort is correct for all inputs of a length if and only if the length is at most 2^32. |
| StableSorting.StableSortVia | src/mem/arena.rs:901-936 | The in-place method computes the specified result, or leaves the input alone when scratch space is missing. |
| StableSorting.ApplyInPlace | src/mem/arena.rs:914-934 | The loop over cycles equals the recursive definition. |
| StableSorting.Cycle | src/mem/arena.rs:921-933 | The inner loop equals following one cycle. |
| GcStore.PageWhole | src/object_store.rs:571-596 | A listed page is exactly the stored keys past the cursor up to the next cursor, in order. |
| GcStore.AdvancedKeeps | src/checkpoint/maintenance.rs:213-257 | A call moves an active request unless the store is not ready. The request then has a result if and only if it was served, and its object counts as read if and only if it was a served GET. A deletion that is served, or refused after taking effect, removes just its key; a completed listing holds the whole page. |
| GcStore.PolledKeeps | src/checkpoint/maintenance.rs:125-155 | Polling for the outstanding request is never told that the request changed. It waits if and only if nothing may start or the store is not ready, and fails if and only if the request was refused, now or before. Each result is consumed once and is the request's own. |
| GcStore.PolledChanged | src/checkpoint/maintenance.rs:125-155 | Polling for another request than the outstanding one is told so, and touches nothing. |
| GcKeep.InsertedKeeps | src/checkpoint.rs:15906-15919 | Inserting a block keeps every mark and adds just that block. |
| GcKeep.RootInsertedKeeps | src/checkpoint.rs:15890-15904 | Inserting a root marks it with its kind even when the block was present without one. |
| GcKeep.RetainedKeeps | src/checkpoint.rs:15922-15988 | Retaining a manifest adds exactly its roots. |
| GcKeep.RetainFits | src/checkpoint.rs:15886-15988 | Marks are retained if and only if the blocks fit the reserved capacity and none is a roster of both kinds; the set then names exactly the blocks and rosters of both. |
| GcKeep.CaptureExact | src/checkpoint/garbage.rs:78-181 | A captured keep-set stands for exactly the merge output, retained, published, completed, finishing, installed and source SSTs, and retained and bound index roots, despite sorting, repeats and skipped duplicates. |
| GcKeep.BoundFits | src/checkpoint/garbage.rs:157-181 | Bound index roots fit if and only if the retained ones leave room for those that are new. |
| GcKeep.CaptureFits | src/checkpoint/garbage.rs:78-181 | A capture succeeds if and only if each inventory fits its reservation, all blocks fit the keep-set and none is a roster of both kinds. |
| GcInvariant.RootsAreAll | src/checkpoint/garbage.rs:236-264 | Once all manifests are read, the roots are exactly those in memory, in the live manifest and in every stored backup. |
| GcInvariant.MarkedIsLive | src/checkpoint/garbage.rs:265-281 | When no roster is left to walk, the keep-set is exactly the roots and the children in their rosters. |
| GcSteps.BegunKeeps | src/checkpoint/garbage.rs:185-196 | A captured cycle starts from the roots in memory; a failed capture deletes nothing. |
| GcSteps.BackedKeeps | src/checkpoint/garbage.rs:197-235 | Paging through backups collects exactly the names of the stored backups. |
| GcSteps.ReadKeeps | src/checkpoint/garbage.rs:236-264 | Reading a manifest adds its roots; waiting and errors lose nothing. |
| GcSteps.WalkedKeeps | src/checkpoint/garbage.rs:265-357 | Walking keeps every child delivered so far, across waits and partial index walks, and completes marking only when all rosters are done. |
| GcSteps.SweptKeeps | src/checkpoint/garbage.rs:358-383 | A page dooms exactly its unkept blocks, all of which fit, or changes nothing when a key names no block. |
| GcRuns.DeletedKeeps | src/checkpoint/garbage.rs:384-391 | A key leaves the doomed list only when its block is gone. |
| GcRuns.PurgedKeeps | src/checkpoint/garbage.rs:384-401 | A purged page hands over to the next cursor or ends the cycle. |
| GcRuns.BeatKeeps | src/checkpoint/garbage.rs:39-76 | Every beat keeps what its phase knows, with errors discarding only an unfinished marking. |
| GcRuns.StepKeeps | src/checkpoint/garbage.rs:21-76 | So does every interleaving of beats with request progress, credential drains, resets and writers between cycles. |
| GcRuns.BeatDeletesGarbage | src/checkpoint/garbage.rs:183-404 | A beat removes a block only after marking completed, and only one that is no root and no child of a root. |
| GcRuns.CollectorSafe | src/checkpoint/garbage.rs:21-404 | The same over every run, for every next step, including requests that were interrupted after they took effect. |
| GcRuns.CycleLeavesLive | src/checkpoint/garbage.rs:265-401 | A completed cycle leaves exactly the blocks stored at its start that are live, and has listed every stored key once. |
| GcRuns.FailureKeepsPlace | src/checkpoint/garbage.rs:37-76 | An error after marking keeps the failed key and the cursor. |
| GcRuns.DoomedFits | src/checkpoint/garbage.rs:358-383 | In every run the doomed list is empty when a page is listed and never exceeds its reservation. |
| GcAnswers.NamedFits | src/checkpoint/garbage.rs:198-216 | A page of backups is accepted if and only if every name is valid and all fit; then exactly its names are added, in order. |
| GcAnswers.BeginAnswers | src/checkpoint/garbage.rs:185-196 | A cycle starts if and only if its roots can be captured, and lists the backups if and only if their roster is not loaded. |
| GcAnswers.BeatHears | src/checkpoint/garbage.rs:183-383 | A beat that asks for something waits if and only if the store makes it wait, and errs if and only if its request was refused, now or before, or the answer cannot be used: corrupt bytes, an invalid name or one too many, marks that do not fit, a key that names no block. It has read its object if and only if that was served or cached. |
| GcAnswers.PurgeBounded | src/checkpoint/garbage.rs:384-391 | A beat of deletions takes at most its allowance from the end of the doomed list, drops only keys that are gone, and removes nothing else but possibly the key it asked for last. |
| GcAnswers.KeepFits | src/checkpoint.rs:15906-15919 | In every run the keep-set stays within its reservation. |
| GcAnswers.RosterExact | src/checkpoint/garbage.rs:197-235 | In every run a loaded roster names every stored backup exactly once, in ascending order. |
| GcAnswers.DoneKeepsRoster | src/checkpoint/garbage.rs:392-401 | A finished cycle leaves the roster of backups loaded for the next one. |
| GcReads.StepReads | src/checkpoint/garbage.rs:21-404 | Every step keeps what has been read: manifests up to the index, rosters up to the position, visits up to the place of the walk. |
| GcReads.EverythingRead | src/checkpoint/garbage.rs:265-281 | When no roster is left to walk, the live manifest, the manifest of every stored backup and the blocks of every root's roster have been read since the cycle began. |
| GcReads.ReadSoFar | src/checkpoint/garbage.rs:236-357 | In every run a walking cycle has read every manifest and every roster it has passed since it began, and a sweeping one all of them. |
| GcReads.RemovedAfterReading | src/checkpoint/garbage.rs:183-404 | Over every run, whatever step comes next: a stored block is removed only when all of these were served or cached since the cycle began. |
| GcReads.ReadIsServed | src/checkpoint/maintenance.rs:125-257 | Over every step the objects read grow by exactly the object asked for, and only when it was served or cached. |
| GcProgress.BeatProgresses | src/checkpoint/garbage.rs:183-404 | A lexicographic measure falls with every beat that neither waits nor fails, and does not rise while waiting. |
| GcProgress.CycleEnds | src/checkpoint/garbage.rs:183-404 | From every state: if no beat waits or fails until the cycle ends, some beat ends it. |
| GcMachine.BlockKeepSet.constructor | src/checkpoint.rs:15866-15884 | An empty set. |
| GcMachine.BlockKeepSet.Clear | src/checkpoint.rs:15872-15884 | Empties list and index together. |
| GcMachine.BlockKeepSet.Insert | src/checkpoint.rs:15906-15919 | Appends once, or reports exhaustion. |
| GcMachine.BlockKeepSet.InsertRoot | src/checkpoint.rs:15890-15904 | Marks the block, or reports exhaustion or a conflicting kind. |
| GcMachine.BlockKeepSet.InsertAll | src/checkpoint.rs:15922-15988 | Retains a list up to the first failure. |
| GcMachine.Search | src/checkpoint/garbage.rs:371-373 | The binary search finds a block if and only if the sorted keep-set holds it. |
| GcMachine.MetadataIo.constructor | src/checkpoint/maintenance.rs:88-113 | An idle request over a bucket. |
| GcMachine.MetadataIo.ListBatch | src/object_store/sim.rs:396-428 | The loop over sorted objects yields the page. |
| GcMachine.MetadataIo.Advance | src/checkpoint/maintenance.rs:213-257 | One step of an active request, equal to the function of which `GcStore.AdvancedKeeps` says that only a served request has a result. |
| GcMachine.MetadataIo.Poll | src/checkpoint/maintenance.rs:125-155 | Starts, drives and consumes a request. |
| GcMachine.MetadataIo.Cancel | src/checkpoint/maintenance.rs:277-281 | Forgets the request and its page. |
| GcMachine.FileGc.constructor | src/checkpoint/garbage.rs:11-18 | An unloaded collector. |
| GcMachine.FileGc.ResetFileGc | src/checkpoint/garbage.rs:21-31 | Discards the whole cycle. |
| GcMachine.FileGc.CaptureRoots | src/checkpoint/garbage.rs:78-181 | Fills the keep-set in the order of the source, stopping at the first failure. |
| GcMachine.FileGc.AddNames | src/checkpoint/garbage.rs:198-216 | The page callback: collects names, notes invalid ones. |
| GcMachine.FileGc.ReadBackups | src/checkpoint/garbage.rs:197-235 | One page of backups. |
| GcMachine.FileGc.ReadManifest | src/checkpoint/garbage.rs:236-264 | One manifest. |
| GcMachine.FileGc.Fetch | src/checkpoint/garbage.rs:409-448 | A cached block when idle, otherwise the request. |
| GcMachine.FileGc.Take | src/checkpoint/garbage.rs:298-306 | Keeps the children that a read delivered. |
| GcMachine.FileGc.Skip | src/checkpoint/garbage.rs:268-272 | Skips entries that are no rosters. |
| GcMachine.FileGc.WalkRosters | src/checkpoint/garbage.rs:265-357 | One roster step, or the end of marking. |
| GcMachine.FileGc.VisitRows | src/checkpoint/garbage.rs:292-306 | One row roster. |
| GcMachine.FileGc.VisitIndex | src/checkpoint/garbage.rs:307-353 | One step of an index walk, which survives waiting. |
| GcMachine.FileGc.Doom | src/checkpoint/garbage.rs:359-377 | The page callback of the sweep. |
| GcMachine.FileGc.SweepPage | src/checkpoint/garbage.rs:358-383 | One page of blocks. |
| GcMachine.FileGc.DeleteDoomed | src/checkpoint/garbage.rs:385-391 | Deletes from the end of the list, popping on confirmation only. |
| GcMachine.FileGc.PurgePage | src/checkpoint/garbage.rs:384-401 | A beat of deletions. |
| GcMachine.FileGc.Begin | src/checkpoint/garbage.rs:185-196 | Starts a cycle. |
| GcMachine.FileGc.AdvanceFileGc | src/checkpoint/garbage.rs:183-404 | One step of the state machine. |
| GcMachine.FileGc.CollectBlockGarbageBatch | src/checkpoint/garbage.rs:39-76 | One beat, resetting after an error before marking is complete. |
| WorkspaceLeases.NoneFree | src/server.rs:299-309 | The round-robin search fails if and only if every workspace is taken. |
| WorkspaceLeases.FirstFree | src/server.rs:299-309 | A workspace that is found is the first free one in round-robin order. |
| WorkspaceLeases.TryAcquireKeeps | src/server.rs:291-311 | Taking a workspace keeps owners and waiters distinct and disjoint, and cannot overtake waiters. |
| WorkspaceLeases.TryAcquireGrants | src/server.rs:291-311 | A holder keeps its workspace; anybody else is granted one if and only if one is free, nothing else changes, and the next search starts behind it. |
| WorkspaceLeases.AcquireKeeps | src/server.rs:279-289 | A failed request joins the roster once, and the roster fits its reservation. |
| WorkspaceLeases.RosterFits | src/server.rs:279-289 | A roster of distinct connections has at most one place for each. |
| WorkspaceLeases.ReleaseKeeps | src/server.rs:314-327 | A released workspace goes to the oldest waiter, or becomes free when nobody waits; every other lease stays. |
| WorkspaceLeases.CancelKeeps | src/server.rs:342-347 | Cancelling keeps the lease invariant. |
| WorkspaceLeases.WaiterMoves | src/server.rs:279-354 | A waiter moves only forward, one place for each workspace given up. |
| WorkspaceLeases.ServedInOrder | src/server.rs:279-354 | A waiter with k others ahead holds a workspace once k + 1 have been given up, whatever else happens. |
| WorkspaceLeases.QueryWorkspaceLeases.constructor | src/server.rs:257-271 | All workspaces free, nobody waiting. |
| WorkspaceLeases.QueryWorkspaceLeases.Find | src/server.rs:292-298 | The position of an owner. |
| WorkspaceLeases.QueryWorkspaceLeases.RemoveWaiter | src/server.rs:349-354 | Removes one waiter and keeps the order of the others. |
| WorkspaceLeases.QueryWorkspaceLeases.TryAcquire | src/server.rs:291-311 | Equals its specification and keeps the lease invariant. |
| WorkspaceLeases.QueryWorkspaceLeases.Acquire | src/server.rs:279-289 | Likewise; the roster push cannot fail. |
| WorkspaceLeases.QueryWorkspaceLeases.Release | src/server.rs:314-327 | Likewise. |
| WorkspaceLeases.QueryWorkspaceLeases.Cancel | src/server.rs:342-347 | Likewise. |
| DispatchQueues.QueryDispatchQueue.constructor | src/server.rs:196-206 | An empty queue. |
| DispatchQueues.QueryDispatchQueue.Push | src/server.rs:212-220 | Appends to the abstract sequence; the slot it takes is empty. |
| DispatchQueues.QueryDispatchQueue.Pop | src/server.rs:222-232 | Takes the first of the abstract sequence, if any. |
| ServerInvariant.WokenKeeps | src/server.rs:1750-1778 | Offering a workspace along the roster keeps every queued lease and changes only read interest. |
| ServerSteps.HandoffLands | src/server.rs:1750-1778 | No wakeup is lost: a workspace handed on ends with an open connection that reads, or free with an empty roster. |
| ServerWake.NoneLeaked | src/server.rs:2974-3014 | After the waiters are woken every leased workspace belongs to an open connection that reads or has a buffered response. |
| ServerWake.WakeLeaksNothing | src/server.rs:2974-3014 | So it is after every wake of every run: no workspace is leaked. |
| ServerInvariant.ReleasedKeeps | src/server.rs:3086-3144 | Closing a connection that is not queued keeps the scheduler invariant. |
| ServerInvariant.ReconciledKeeps | src/server.rs:1817-1853 | So does reconciling read interest. |
| ServerInvariant.CallKeeps | src/server.rs:1608-1614 | So does a call into an idle connection followed by its completion. |
| ServerSteps.InterruptedKeeps | src/server.rs:1899-1912 | So does a cancel request, even for a queued retry. |
| ServerSteps.StreamKeeps | src/pg/conn.rs:4128-4164 | So does what a dispatch sends while it runs. |
| ServerSteps.StoredKeeps | src/server.rs:1734-1741 | So does buffering a response; one that was there already belonged to a connection resumed while it waited. |
| ServerSteps.FlushedKeeps | src/pg/conn.rs:4520-4553 | So does sending what the socket accepts. |
| ServerSteps.WrittenKeeps | src/pg/conn.rs:1057-1090 | So does a writable event. |
| ServerSteps.ExecutedKeeps | src/server.rs:1649-1748 | Executing a dispatch keeps the invariant and leaves connections that are not queued open, unanswered and at their generation. |
| ServerSteps.DrainedKeeps | src/server.rs:1649-1704 | So does draining the queue. |
| ServerSteps.DispatchedKeeps | src/server.rs:1554-1615 | So does every socket event, including a drain in the middle of one. |
| ServerSteps.RequestHeld | src/server.rs:1578-1607 | No request is lost, not even when the queue is drained in the middle of it: afterwards the connection is queued, or it is on the roster while every workspace is taken. |
| ServerSteps.EventHeld | src/server.rs:1554-1615 | So a readable event on a connection that reads, with or without a writable one, ends with a place in the queue or on the roster. |
| ServerGate.GateCloses | src/server.rs:1572-1577 | A readable event on an open, reading, idle connection that finds publication not ready closes it: no response, no interest, no workspace, no place on the roster or in the queue; the queue is as before, the history gains only that it has gone, and other connections can at most begin to read. |
| ServerGate.EventIgnored | src/server.rs:1554-1571 | An event for another generation, a closed slot or a queued one, and a read nobody asked for, change nothing. |
| ServerGate.ReadEnters | src/server.rs:1572-1607 | A step brings a read into the queue only at a readable event for that very connection and generation which finds publication ready. |
| ServerGate.ReadsAdmitted | src/server.rs:1554-1748 | Over every run, a connection has at most as many reads queued and answered as readable events that found publication ready. |
| ServerGate.StepGeneration | src/server.rs:3086-3144 | A step moves a slot's generation by one, modulo 2^32, or not at all, and frees the slot when it does. |
| ServerGate.StaleIgnored | src/server.rs:1554-1571 | Over every run, a slot is of the generation it was if and only if a multiple of 2^32 connections have left it; otherwise an event for that generation is ignored. |
| ServerGate.StaleTaken | src/server.rs:1554-1577 | A run of 2^32 connections on one slot after which an event for the first closes the last. |
| ServerEffects.FlushSends | src/pg/conn.rs:4520-4553 | What a flush sends, followed by what it leaves, is what was there; it sends as much as the socket takes. A connection at its last words drains once nothing is left. |
| ServerEffects.InterestFollows | src/server.rs:1817-1853 | Read interest holds if and only if the connection can run or drains, write interest if and only if it has something to send; nothing else changes. |
| ServerEffects.WrittenBytes | src/pg/conn.rs:1057-1090 | After a writable event there is left what the socket did not take, and what was owed if everything was out. |
| ServerEffects.WritableFlushes | src/server.rs:1608-1612 | A writable event flushes past whatever is held back, then ends the connection or renews its interest as the transport says. |
| ServerEffects.EventRefreshes | src/server.rs:1608-1615 | An event that is neither readable nor writable only renews interest. |
| ServerEffects.DeclineRestores | src/server.rs:1662-1704 | A retry whose statement is no longer parked, or that the engine is not ready for, gives its workspace back and changes nothing else. |
| ServerEffects.DispatchAnswers | src/server.rs:1649-1748 | A dispatch that goes on leaves a response with its number, the journal before and after, its mark if it reached the engine, and what it waits for: the journal it wrote, or else the commit it has staged; its output follows what was unsent, less what it has sent, which the history records. |
| ServerEffects.EngineObeyed | src/server.rs:1662-1697 | The engine's answer for the connection is taken over; an undurable staged commit stays staged and parks it. |
| ServerEffects.ClosingAnswers | src/server.rs:1715-1748 | A closing dispatch is answered at once: what was unsent and what it wrote leave from the front as far as the socket takes them, no response is buffered, and the connection is closed or kept as the transport says. |
| ServerEffects.CancelInterrupts | src/server.rs:1899-1912 | A cancel request changes exactly an open connection whose statement is parked and has staged no commit: it is no longer parked, and its client is told. |
| ServerEffects.RetryHeld | src/server.rs:2981-3005 | After a retry is requested it is queued last, or every workspace is taken and the queue is empty. |
| ServerEffects.WakePasses | src/server.rs:2974-3014 | Waking makes passes over the slots until the first that is stable, or as many as it may. |
| ServerEffects.AcceptOpens | src/server.rs:1519-1552 | A new connection is idle, reads and has nothing to send; a slot in use, or one with a detached commit, is not given out. |
| ServerEffects.SettleFrees | src/server.rs:3146-3169 | A detached slot is freed for the next generation if and only if its commit is no undurable journal commit. |
| ServerEffects.ExpelEnds | src/server.rs:1914-1942 | An expelled connection loses its unsent output for its last words, ends its wait, and keeps its staged commit and its response. |
| ServerEffects.TerminateCloses | src/server.rs:3086-3144 | A terminated connection is closed and keeps nothing. |
| ServerEffects.PublishAdvances | src/server.rs:1286-1376 | The durable LSN only moves forward, and never past the journal. |
| ServerEffects.FinishTells | src/server.rs:1783-1815 | A response is finished if and only if what it waits for is durable or publication has failed. The client is then told what was written, or, when the dispatch failed and has a mark, an error in place of all after the mark, and a connection whose staged commit failed ends. |
| ServerSteps.WaitersWokenKeeps | src/server.rs:2974-3014 | So do all retry passes. |
| ServerSteps.FinishedKeeps | src/server.rs:1783-1815 | So does finishing a batch, whether or not publication failed. |
| ServerSteps.BatchReleases | src/server.rs:1783-1815 | A batch leaves only responses still behind the barrier, and none after a failed publication, unless the truncation assertion stopped the server. |
| SendBuffers.LeadReached | src/mem/buffer.rs:28-43 | The first n bytes of a buffer hold one of a dispatch if and only if n goes past the bytes before it. |
| SendBuffers.StreamConserves | src/pg/respond.rs:702-765 | Streaming neither loses nor reorders a byte: what left followed by what stays is what was there followed by what was written. |
| SendBuffers.PouredBytes | src/pg/respond.rs:702-765 | What leaves during a dispatch is the front of what was there and what it wrote; the rest stays. |
| SendBuffers.DrainsAll | src/pg/respond.rs:702-740 | Drains that empty the buffer send all there was and all that was written before the last of them. |
| SendBuffers.PouredOwn | src/mem/buffer.rs:33-106 | What a dispatch leaves unsent lies in one piece behind what was there before, and that ends no later than the mark of the dispatch. |
| ServerOutput.FlushedOut | src/pg/conn.rs:4520-4553 | Sending keeps the output invariant: every buffered byte of the waiting response carries the LSN that response needs, any other byte that is still early was stranded, by a replaced response or an error, and the output of the waiting response lies where the bytes sent since say. |
| ServerOutput.StreamingOk | src/pg/conn.rs:4128-4164 | Of what a dispatch sends while it runs, each early byte belongs to the response held back or to the dispatch itself, or was stranded before. |
| ServerOutput.ExecutedOut | src/server.rs:1649-1748 | So does executing a dispatch, whether it streams, buffers, parks, closes or cancels another. |
| ServerOutput.OwnPlace | src/pg/conn.rs:997-1003 | The unsent output of a dispatch lies behind what was unsent before it, each less what was streamed; its mark is exact when the buffer started at its front and nothing was streamed. |
| ServerOutput.WrittenOut | src/pg/conn.rs:1057-1090 | So does a writable event. |
| ServerOutput.ExactMark | src/mem/buffer.rs:93-106 | A mark whose output has not moved can be truncated to, and leaves nothing of the answer behind. |
| ServerOutput.ErrorOut | src/pg/conn.rs:1009-1055 | A publication error takes the output of its response back, or leaves some behind and says so. |
| ServerOutput.FinishedAtOut | src/server.rs:1783-1815 | So finishing a response keeps the output invariant, on success and on error. |
| ServerRuns.TurnLegal | src/server.rs:1300-1376 | Every reactor turn (events, drain, then the rest in any order) is legal and ends with an empty queue. |
| ServerRuns.SchedulerSafe | src/server.rs:1554-1748 | In every run each queued dispatch holds the workspace it names for an open connection of its generation, owners and workspaces are distinct, exactly the queued connections are pending, and the queue fits. |
| ServerRuns.PushFits | src/server.rs:1641-1647 | A dispatch that may be queued always finds room, so the push assertions hold. |
| ServerRuns.StepKeeps | src/server.rs:1300-1376 | Every step keeps the scheduler invariant. |
| ServerRuns.StepGuards | src/server.rs:1300-1376 | Every step keeps the output invariant. |
| ServerRuns.StandingTold | src/server.rs:1734-1741 | The recorded standing of a response is what the history says: it waits if and only if it was buffered and neither finished, replaced nor gone since, and is exposed if and only if read interest returned meanwhile. |
| ServerRuns.ReplacesAfterResume | src/server.rs:1715-1748 | Over every run, a response that takes the place of a waiting one answers a read, after the connection was found willing to read while the other one waited. |
| ServerRuns.ReplacedExactly | src/server.rs:1715-1748 | Over every run, a buffered response is replaced if and only if, after it was buffered and before it was finished or its connection gone, interest was brought in line with a connection willing to read and a read then ran. |
| ServerRuns.CommitBarrier | src/pg/conn.rs:1006-1055 | Over every run and every dispatch: bytes leave before the LSN of their dispatch is durable if and only if they are sent past a response that is held back, on a writable event, by a closing answer or by a dispatch that streams, or the dispatch that streams wrote them and is not durable, or they were stranded before; finishing responses sends nothing held back. |
| ServerRuns.StreamReaches | src/pg/conn.rs:4128-4164 | At a dispatch that streams, something leaves early if and only if the front of the buffer that leaves holds an early byte, or it reaches output of the dispatch and that is not durable. |
| ServerRuns.DrainReaches | src/pg/respond.rs:702-765 | When the drains empty the buffer: if and only if the buffer held an early byte, or the dispatch wrote before the last drain and is not durable. |
| ServerRuns.PlaceTold | src/mem/buffer.rs:33-106 | Where the output of a waiting response lies follows from where it lay when buffered and the number of bytes sent, or a clearing, since. |
| ServerRuns.TakenBackExactly | src/pg/conn.rs:1014-1043 | After every run, an error stops the server if and only if its mark lies outside the unsent bytes; otherwise it keeps all that is ahead of its output, keeps exactly the stated bytes of its output, and reports some left behind if and only if what is ahead ends before the mark and output is still there. |
| ServerRuns.TakenBackUnlessMoved | src/pg/conn.rs:1014-1022 | Over every run, an error leaves output behind, or fails its assertion, only when bytes had been sent before its dispatch wrote, or were sent or cleared while it ran or waited. |
| ServerRuns.WritableReaches | src/pg/conn.rs:1057-1058 | At a writable event, output of the response that is held back leaves early if and only if the socket takes more than the bytes before it. |
| ServerRuns.ReadMoves | src/mem/buffer.rs:46-106 | At a read: the mark of the answer is a legal place to truncate to if and only if no more bytes had been sent, before and while it streamed, than the dispatch wrote; truncating there leaves as many bytes of the answer as had been sent before plus what it streamed of the bytes ahead. |
| ServerExamples.EarlyAnswer | src/server.rs:3054-3084 | A run in which interest is brought in line while an answer waits and a writable event sends that answer before its LSN is durable. |
| ServerExamples.StreamedAnswer | src/pg/conn.rs:4567-4582 | A run of one read with two requests, a journal write and a large result: the second drains the answer to the first before its LSN is durable, with no response held back or replaced. |
| ServerExamples.OvertakenAnswer | src/pg/conn.rs:4128-4164 | A run in which a further read streams and drains a waiting answer before any response replaces it. |
| ServerExamples.ReplacedAnswer | src/server.rs:1734-1741 | A run in which a further read replaces the waiting response and finishing the later one sends both answers too early. |
| ServerExamples.ClippedAnswer | src/pg/conn.rs:1014-1022 | A run in which a publication error truncates to a stale mark and a byte of the failed answer leaves. |
| ServerMachine.Reactor.constructor | src/server.rs:149-157 | All slots free. |
| ServerMachine.Reactor.WakeHandoff | src/server.rs:1750-1778 | The loop over handoffs equals its specification. |
| ServerMachine.Reactor.GiveBack | src/server.rs:1706-1710 | Releases exactly the named workspace. |
| ServerMachine.Reactor.Release | src/server.rs:3086-3144 | Closes a connection; a staged commit keeps its slot. |
| ServerMachine.Reactor.Reconcile | src/server.rs:1824-1837 | Read interest follows the connection. |
| ServerMachine.Reactor.Flush | src/pg/conn.rs:4520-4553 | Sends what the socket accepts and records it. |
| ServerMachine.Reactor.CompleteDispatch | src/server.rs:1817-1853 | Closes or reconciles. |
| ServerMachine.Reactor.Enqueue | src/server.rs:1641-1647 | Queues a dispatch; the assertions of the source are proved. |
| ServerMachine.Reactor.Cancel | src/server.rs:1899-1912 | Interrupts a parked statement. |
| ServerMachine.Reactor.CompleteExecution | src/server.rs:1715-1748 | Frees the workspace and buffers the response. |
| ServerMachine.Reactor.Describe | src/server.rs:1662-1697 | Runs the input and describes what its response waits for, with the mark taken before. |
| ServerMachine.Reactor.RunDispatch | src/pg/conn.rs:959-1004 | Runs the input, sends what it streams past the barrier and keeps the rest, as specified. |
| ServerMachine.Stream | src/pg/respond.rs:702-765 | The loop of filling and draining equals its specification. |
| ServerMachine.Reactor.ExecuteNext | src/server.rs:1649-1704 | One dispatch; the assertions of the source are proved. |
| ServerMachine.Reactor.DrainQueries | src/server.rs:1649-1704 | Runs until the queue is empty. |
| ServerMachine.Reactor.Suspend | src/server.rs:1621-1639 | Removes read interest. |
| ServerMachine.Reactor.Admit | src/server.rs:1595-1606 | Queues the read, or parks the connection. |
| ServerMachine.Reactor.RequestRead | src/server.rs:1578-1607 | Takes a workspace, draining the queue when none is free. |
| ServerMachine.Reactor.OnEvent | src/server.rs:1554-1615 | One socket event equals its specification, whose branches `ServerGate.GateCloses`, `ServerGate.EventIgnored`, `ServerSteps.EventHeld`, `ServerEffects.WritableFlushes` and `ServerEffects.EventRefreshes` pin down. |
| ServerMachine.Reactor.FlushWritable | src/pg/conn.rs:1057-1090 | The writable branch equals its specification. |
| ServerMachine.Reactor.RequestRetry | src/server.rs:2981-3005 | One retry of a parked statement. |
| ServerMachine.Reactor.RetryAll | src/server.rs:2981-3006 | One pass over the slots. |
| ServerMachine.Reactor.WakeWaiters | src/server.rs:2974-3014 | Passes until the lock and read generations are stable. |
| ServerMachine.Reactor.FinishResponses | src/server.rs:1783-1815 | The loop over slots equals its specification. |
| ServerMachine.Reactor.FinishResponse | src/server.rs:1788-1812 | One slot of the batch. |
| ServerMachine.Reactor.TakeResponse | src/pg/conn.rs:1009-1043 | Takes the response and, on an error, its output back to the mark; false exactly where the assertion of the truncation fails. |
| ServerMachine.TakeBack | src/pg/conn.rs:1014-1043 | The error branch on one connection, including the end of one whose commit is staged. |
| WriterProbes.ApplyKeeps | src/checkpoint/probe.rs:79-251 | Every operation keeps the probe invariant. |
| WriterProbes.RunPromises | src/checkpoint/probe.rs:79-236 | Over every run: consumers are counted exactly and positive only in working phases, every outstanding ticket is of the current generation, no ticket is answered by a result completed before it was issued, no GET follows a fence, a completion reports the fence if and only if the fence precedes it, and a generation issues at most three GETs. |
| WriterProbes.AnswerKnowsFence | src/checkpoint/probe.rs:125-139 | Over every run each answer repeats the one completion of its generation, and it reports the fence if and only if the fence came before that completion. |
| ProbeHistory.AnswerMeans | src/checkpoint/probe.rs:125-236 | Over every run each answer is tied to one completion of its generation: it says owned if and only if the reply just heard was this writer's record, within thirty seconds of the last GET; unverified if and only if that reply was an error or late, and not transient or the third; fenced out if and only if a fence came before. |
| ProbeHistory.RepliesDecide | src/checkpoint/probe.rs:165-236 | Over every run a decisive reply completes its generation at once, and another writer's record fences. |
| ProbeHistory.GetsSpaced | src/checkpoint/probe.rs:165-236 | Over every run a GET that repeats another follows the failed reply by at least 100 ms times two to the number of GETs before, of which there are fewer than three. |
| ProbeHistory.RequestAnswer | src/checkpoint/probe.rs:79-123 | A request is granted if and only if the owner exists and holds no ticket, admission is open, and a probe is queued, active or can start; it joins that generation or starts the next at once. |
| ProbeHistory.ReleasedTurns | src/checkpoint/probe.rs:141-163 | Giving back the last ticket releases the probe, and the next turn makes it idle; otherwise nothing changes. |
| ProbeHistory.TakeAnswers | src/checkpoint/probe.rs:125-139 | A ticket is answered if and only if it is held and its generation is complete, once. |
| WriterProbes.FencedOnlyByRecord | src/checkpoint/probe.rs:165-236 | Only an owner record that was read, or an explicit fence, fences: transport errors never do. |
| WriterProbes.DueAdvances | src/checkpoint/probe.rs:165-236 | A due advance completes the generation or lowers its rank. |
| WriterProbes.CompletesWhenDue | src/checkpoint/probe.rs:165-236 | A generation completes after as many due advances as its rank. |
| WriterProbes.RankBound | src/checkpoint/probe.rs:165-236 | Which is at most twice the number of attempts. |
| WriterProbes.WriterProbe.constructor | src/checkpoint/probe.rs:48-75 | An idle probe. |
| WriterProbes.WriterProbe.Request | src/checkpoint/probe.rs:79-123 | Joins or starts a generation, or is turned away, as specified. |
| WriterProbes.WriterProbe.Take | src/checkpoint/probe.rs:125-139 | Gives the completed outcome once. |
| WriterProbes.WriterProbe.Cancel | src/checkpoint/probe.rs:141-144 | Releases the ticket. |
| WriterProbes.WriterProbe.ReleaseOwner | src/checkpoint/probe.rs:155-163 | Frees the owner and, with the last consumer, the generation. |
| WriterProbes.WriterProbe.Advance | src/checkpoint/probe.rs:165-236 | One advance at a given time with a given reply equals its specification; what replies lead to which answers is `ProbeHistory.AnswerMeans`. |
| WriterProbes.WriterProbe.Fence | src/checkpoint/probe.rs:249-251 | Fences for good. |
| Sha256Hmac.ZeroBytesLeast | src/crypto/sha256.rs:65-80 | The zero padding is the least that brings the message to 56 mod 64, as FIPS 180-4 section 5.1.1 asks. |
| Sha256Hmac.ExpandBlock | src/crypto/sha256.rs:82-98 | The schedule filled in place is the FIPS 180-4 section 6.2.2 schedule. |
| Sha256Hmac.Sha256.constructor | src/crypto/sha256.rs:32-39 | The empty message. |
| Sha256Hmac.Sha256.Compress | src/crypto/sha256.rs:82-120 | One block by the FIPS 180-4 compression. |
| Sha256Hmac.Sha256.AbsorbBlock | src/crypto/sha256.rs:41-63 | A whole block folds into the state. |
| Sha256Hmac.Sha256.TopUp | src/crypto/sha256.rs:41-63 | The buffered part is completed first. |
| Sha256Hmac.Sha256.Keep | src/crypto/sha256.rs:41-63 | A remainder waits in the buffer. |
| Sha256Hmac.Sha256.Update | src/crypto/sha256.rs:41-63 | For any split of a message, state, buffer and total are the fold over its whole blocks with the remainder. |
| Sha256Hmac.Sha256.Finish | src/crypto/sha256.rs:65-80 | The digest of everything fed, padded as in FIPS 180-4 section 5.1.1. |
| Sha256Hmac.Sha256Of | src/crypto/sha256.rs:129-133 | The FIPS 180-4 digest of the data. |
| Sha256Hmac.Sha224Of | src/crypto/sha256.rs:138-154 | The first 28 bytes under the SHA-224 initial value. |
| Sha256Hmac.KeyPads | src/crypto/hmac.rs:5-18 | The key block xored with the inner and outer pads. |
| Sha256Hmac.HmacSha256 | src/crypto/hmac.rs:5-29 | The RFC 2104 section 2 definition for every key length. |
| Sha256Facts.ChooseChooses | src/crypto/sha256.rs:100-112 | Ch takes its second argument where the first has ones and its third where it has zeros. |
| Sha256Facts.MajorityAgrees | src/crypto/sha256.rs:100-112 | Maj agrees with any two of its arguments wherever they agree. |
| Sha256Facts.BigShifts | src/crypto/sha256.rs:100-112 | The two big sigmas as shifts. |
| Sha256Facts.SmallShifts | src/crypto/sha256.rs:82-98 | The two small sigmas as shifts. |
| Sha256Facts.RoundUndone | src/crypto/sha256.rs:99-112 | Every round has an inverse that needs only its key and word. |
| Sha256Facts.RoundsUndone | src/crypto/sha256.rs:99-119 | So for every block the rounds permute the state: running their inverses backwards gives it back. |
| Sha256Facts.FeedForward | src/crypto/sha256.rs:119-122 | The result less the state, word by word, is what the rounds give. |
| Sha256Facts.ScheduleBack | src/crypto/sha256.rs:82-98 | The schedule can be run backwards. |
| Sha256Facts.PaddingReads | src/crypto/sha256.rs:65-80 | Byte by byte: the message, 0x80, zeros, and the length in bits with its most significant byte first. |
| Sha256Facts.WordRead | src/crypto/sha256.rs:82-90 | A word read from the four bytes written for it is the word. |
| Sha256Facts.SameKeys | src/crypto/hmac.rs:5-18 | A short key and its zero-filled forms give the same code, and so do a long key and its digest. |
| Sha256Facts.HmacNests | src/crypto/hmac.rs:5-29 | The outer digest, under the 0x5c pad, is of the inner one, under the 0x36 pad. |
| Base64.RoundTrip | src/pem.rs:51-82 | Decoding the RFC 4648 section 4 encoding of any bytes gives them back. |
| Base64.DecodedLength | src/pem.rs:51-82 | n characters before padding decode to floor(6n / 8) bytes. |
| Base64.EncodedLength | src/pem.rs:51-82 | The reference encoding has whole groups of four. |
| Base64.AlphabetExact | src/pem.rs:53-62 | A character has a value if and only if it is in the alphabet of RFC 4648, and the value is its place there. |
| Base64.ShiftKeepsLow | src/pem.rs:68-78 | Losing high bits in the 32-bit accumulator never touches the pending low bits. |
| Base64.DecodeStep | src/pem.rs:68-78 | Taking one more character emits the next byte of the bit string and keeps its rest pending. |
| Base64.Base64Decode | src/pem.rs:51-82 | The loop equals the bit-string definition, with its errors. |

## Left out

- The engine, SQL execution, storage, the write-ahead log and the rest of `src/checkpoint.rs`: they appear only as oracles.
- Sockets, TLS, signals, HTTP endpoints, metrics, logging and `src/config.rs`: plumbing, or independent checks of single values.
- Subscriptions, replication streams and SQL text building in `src/server.rs`.
- Raw pointers, destructors and panic unwinding in the arena: offsets and contents are modelled, and a region close always happens. `high_water` and the last-failure record are not modelled.
- The compare-and-swap loop that draws arena identities is one atomic step; draws by other arenas are a step of their own.
- Interning compares contents as bytes, where the source uses the element type's own equality.
- ArenaLists: elements are values; the arena that supplies a list's buffers appears as an answer whether there is room.
- StableSorting.StableSortVia: the library sort of the index list appears as an insertion sort. For a total preorder every correct sort gives that list (`SortIndicesUnique`); what the library does with a comparator that is none is not modelled.
- GcKeep.RetainedKeeps: a list of marks stands for the parsed manifest; the manifest format and its parser are not part of this model.
- GcMachine.BlockKeepSet.InsertAll: likewise takes the marks that parsing a manifest yields.
- `next_u64`, `next_range_inclusive` and `fill_bytes` of PCG32: direct uses of the modelled draws.
- Reactor interest changes succeed, and the free list is the set of closed slots.
- Closing responses are finished at once, outside the commit barrier, as in the source; what a closing dispatch itself writes carries no LSN in `ServerRuns.CommitBarrier`.
- The engine keeps one promise (`ServerCore.Obeyed`): a statement whose journal commit is staged and not yet durable parks its connection, and a staged commit completes only once durable. All else it answers is arbitrary.
- Output is a sequence of bytes that name their dispatch and the LSN of that whole dispatch, which is what the barrier waits for; contents and the capacity of the buffer are not modelled, so which query streams and when its buffer is full are answers of the oracle. TLS records, whose ciphertext waits outside the send buffer, count as sent.
- Messages that a dispatch takes back itself, when it parks or overflows, count as not written; the assertions of those truncations are not modelled. A TLS write that fails while streaming sends nothing.
- Notifications, administrator termination and detached commits appear as steps on one slot that write some number of unguarded bytes.
- Object keys are numbers in their lexicographic order, with parsing as a parameter. Request deadlines are part of the store's answers.
- An interrupted deletion has taken effect, or not, by the time it is given up; one that arrives at the store later is not modelled.
- Durable writers are paused during a cycle, and backups change only together with a reset, as the collector assumes.
- The walk of an index roster is a fixed list of visits per root, delivered before the walk reports its end; the navigation and roster page formats are not modelled.
- The legacy sweep of the `sst/` prefix, which shares the request.
- SHA-256 and HMAC test vectors, hexadecimal output and PEM block parsing. The round constants and initial values are the tables of FIPS 180-4.
