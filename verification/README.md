# Automatic Optimistic Access: verified models

Dafny models of the lock-free memory managers under the sorted linked list of AutomaticOptimisticAccess, with proofs of
what they guarantee.

- **The automatic collector** (`allocator.c`, `trace.c`, `lfl-RoF.c`): `AoaPhases` is the phase protocol — phase, pool
  version, sweep counter, mark words, dirty records and hazard pointers, advanced by CAS while threads of older phases
  still run, and the reads and checks of the list. `AoaPool` is the versioned pool with its caches; `AoaPoolConservation`
  shows that it loses nothing. `ConcurrentMark` is one phase of collection by many threads: tracing, `CheckFinish`,
  sweeping, allocating; `ConcurrentMarkFinish` and `ConcurrentMarkSweep` say when its end is right, `ConcurrentMarkExact`
  and `ConcurrentMarkGarbage` when it marks nothing unreachable; `ConcurrentMarkExamples` has runs in which it does not
  work out. `TraceStack`, `SweepGeometry`, `Sweeper` and `ClearMarks` are the loops that one thread runs, on arrays and fields.
- **The list** (`lfl-NoOrDelayRecl.c`): `LockFreeList`.
- **Reference counting** (`refcount.c`, `lfl-RC.c`): `RefCount`.
- **The manual allocator** (`allocatorOA.c`, `lfl-MOA.c`, `simpleSet.c`): `MoaPools` is the reclaim/toProcess protocol
  with its recursive calls, `SimpleSet` the hash table, `HazardFilter` the collection of hazard pointers into it and the
  test of a cache against it. `MoaHandshake` puts the flags and the clients' checks on top of `MoaPools`.
- **The barrier** (`worker.c`): `Barrier`.
- `PackedWords` shows that the records used in place of packed machine words say what the packed words say.

Every concurrent model is a machine: a total function `Step(state, action)` that performs one access to shared memory (or
one local move) of the thread the action names. `Runs.After(Step, Init(..), schedule)` is the state after any finite
schedule. All main results hold for any number of threads and every schedule; a thread that stops forever is a schedule
that stops naming it. Choices that the model leaves open (which pointer is published, how a key comparison comes out,
whether an object is unmarked) are part of the action, so they too are quantified over.

Each machine comes in up to four files: the machine, its invariant, the proof that every step keeps it, and the theorems.
The bodies of the step functions cite nothing; where they come from:

| machine | source |
|---|---|
| `AoaPhases.OperationStep` | `allocator.c:109-151`, `lfl-RoF.c:23-30`, `lfl-RoF.c:72-171` |
| `AoaPhases.ReclaimStep` | `allocator.c:35-108` |
| `AoaPhases.MarkStep`, `AoaPhases.SweepStep` | `trace.c:38-58`, `trace.c:103-113`, `trace.c:315-404`, `trace.c:426-447` |
| `AoaPool.ThreadStep`, `AoaPool.SweepStep`, `AoaPool.PushStep` | `allocator.c:81-151`, `allocator.c:181-195`, `allocator.c:269-281`, `trace.c:315-404` |
| `ConcurrentMark.ThreadStep`, `ConcurrentMark.TraceStep` | `trace.c:38-58`, `trace.c:163-185`, `trace.c:211-218`, `trace.c:293-312` |
| `ConcurrentMark.CheckStep` and the functions it calls | `trace.c:114-157` |
| `ConcurrentMark.SweepStep` | `trace.c:103-113`, `trace.c:315-405`, `allocator.c:109-126` |
| `LockFreeList.ThreadStep` | `lfl-NoOrDelayRecl.c:31-162` |
| `RefCount.TaskStep`, `RefCount.FindStep`, `RefCount.UpdateStep` | `refcount.c:9-67`, `lfl-RC.c:32-154` |
| `MoaPools.ThreadStep` and the functions it calls | `allocatorOA.c:29-157`, `allocatorOA.c:172-282` |
| `MoaHandshake.FlagStep`, `MoaHandshake.ClientStep` | `allocatorOA.c:66-77`, `lfl-MOA.c:18-27`, `lfl-MOA.c:46-143` |
| `Barrier.ThreadStep` | `worker.c:70-82` |

Some fields are history variables: no branch of a step reads them, and their comments say so. They record the owner of a
cache, the place of a node, the stage of a node's life, past heaps, times, and the like. Where a result is stated through
one, another ties it to the code's own variables (`MoaPoolsTheorems.EveryNodeOnce`, `MoaPoolsTheorems.EveryCacheOnce`,
`LockFreeListTheorems.HistoryIsTheRun`, `RefCountTheorems.CountsAreExact`, `AoaPoolConservation.OutWasHandedOut`,
`AoaPhaseTheorems.SeenIsCleared`, `AoaPhaseTheorems.HeldIsRead`, `MoaHandshakeTheorems.NewIsClients`). The conditions of
`ConcurrentMarkFinish.FreshOrStillIsRight` are about history variables too: whether a thread has published in the phase,
and whether it has moved meanwhile, shows in no field of the code.

## What came out

- `hash_insert` refuses an insertion when the table holds more than `max / 2` values, which leaves an empty cell for the
  next search for every `max` except 1 and 2 (`SimpleSet.CapacityRule`). For a full table a search for an absent value
  never ends (`SimpleSet.RetrieveEnds`, `SimpleSet.SmallTableFills`). The allocator asks for twice as many cells as there
  are hazard pointers and never comes near (`HazardFilter.Collect`).
- `setAddP` cuts a pointer to 32 bits and `hash_insert` asserts that the result is not 0: a hazard pointer whose low 32
  bits are all zero trips the assertion, and nothing else does (`HazardFilter.Collect`, `HazardFilter.CutExactly`; an
  address at which it does: `HazardFilter.CollectTrips`).
- `CheckFinish` may end a phase while an object reachable from the roots is unmarked, so that the sweep frees it. It reads
  a slot and tests the object afterwards; a thread that in between overwrites the slot with the object's child, and then
  marks the object, is seen with nothing to do (`ConcurrentMarkExamples.MissesOverwrittenSlot`). A return of 1 is right if
  and only if no busy thread then holds an unmarked object that the roots reach (`ConcurrentMarkFinish.ReturnIsRightIff`).
- It does not help `CheckFinish` to have seen every thread of the phase finished, in both passes and unchanged: a thread
  that has not yet published anything shows the finished mark of an earlier phase, and may trace, hand its work on and
  come back to the same word in between (`ConcurrentMarkExamples.FinishedIsNotEnough`). It is right if each other thread
  was outside the phase, or was finished and had published in the phase or never in its life, or made no step while
  `CheckFinish` read its stack, as a thread that has stopped for good (`ConcurrentMarkFinish.FreshOrStillIsRight`). Then
  nothing that the phase frees was reachable (`ConcurrentMarkSweep.FreedWasUnreachable`).
- `CheckFinish` may take over slots that an earlier phase has left in a mark stack, so concurrent marking keeps garbage
  too (`ConcurrentMarkExamples.KeepsGarbage`). That it marks nothing unreachable, whatever the threads do and wherever in
  the stacks the leftovers are, holds if and only if there is one thread at most, or no thread has a root, or every object
  left over is reachable from some thread's roots or hazard pointers (`ConcurrentMarkGarbage.ExactIff`). Under the last
  condition marking is exact where `FreshOrStillIsRight` applies (`ConcurrentMarkExact.ReturnIsExact`).
- In `pop` of `allocatorOA.c` the second branch and the failing assertion of lines 111-112 cannot be reached
  (`MoaPoolsTheorems.PopInstallsSuccessor`).
- `ListInsert` stores the key and drops `data`; `getData` gives back the key's sign (`PackedWords.KeysAndData`).
- The branch of `traceObj` for more than one child (`trace.c:186-210`) calls `is_marked` with two arguments, which that
  function does not take; only the branch for one child is in use.

## Model

| member | source | states |
|---|---|---|
| AoaPhaseInvariant.StepKeeps | allocator.c:35-107 | Every step of every thread, also of one whose phase is long over, keeps the invariant of the phase protocol. |
| AoaPhaseInvariant.ReachableInv | allocator.c:201-236 | The invariant holds after every schedule of any number of threads. |
| AoaPhaseTheorems.OnePhaseLag | trace.c:103-113 | Pool version, sweep counter, all dirty records and all mark words carry the current phase or the one before, no thread is ahead, and neither phase assertion fails. |
| AoaPhaseTheorems.TagsComeWithFlags | allocator.c:50-60 | A dirty record reaches a phase tag only in a step that raises its flag as well, while the phase is at least that. |
| AoaPhaseTheorems.TwoAttemptsSuffice | allocator.c:51-60 | When a collector's flagging loop is over, every record has reached its phase, by a step that raised the flag during that phase or later, although owners clear bytes and slow collectors flag meanwhile. |
| AoaPhaseTheorems.NoStaleAllocation | lfl-RoF.c:82-91 | A FENCE_CHECK that passes after palloc has a node popped at the version that the thread's own record carries. |
| AoaPhaseTheorems.NullIsDiscarded | allocator.c:142-145 | A NULL of palloc only occurs with the flag up and never gets to the guarded CAS. |
| AoaPhaseTheorems.GuardRemembersFence | lfl-RoF.c:27-30 | From the passed FENCE_CHECK to the guarded CAS the thread has seen no newer flag than the one of its record at the check. |
| AoaPhaseTheorems.PublishedStands | lfl-RoF.c:82-91 | At the check and at the guarded CAS the thread's hazard pointers are what it published, and those read from the list were read with the tag it has seen last. |
| AoaPhaseTheorems.HandshakeSound | allocator.c:61-73 | If a thread passed its check before its flag was raised for the collector's phase and has its guarded CAS still to make, the collector that has read the hazard pointers holds every pointer it published. |
| AoaPhaseTheorems.AttemptKeepsSeen | lfl-RoF.c:125-171 | From one restart to the next, through any number of reads, CHECKs, allocations, passed FENCE_CHECKs, unlinkings and CASes, a thread clears no flag. |
| AoaPhaseTheorems.SeenIsCleared | lfl-RoF.c:23-30 | What a thread has seen of a phase it has seen by a step of its own that cleared its flag at that tag. |
| AoaPhaseTheorems.HeldIsRead | lfl-RoF.c:125-171 | A pointer that a thread holds was read from the list by a step of its own, with the tag it had seen last by then. |
| AoaPhaseTheorems.LateCheckHasRestarted | lfl-RoF.c:109-120 | If the check came after the flag, the owner had cleared that flag before any moment of the attempt. |
| AoaPhaseTheorems.Handshake | allocator.c:51-73 | Between its passed check and its guarded CAS, and for a collector that has read the hazard pointers: every pointer the thread published is among those collected, is NULL, or was read from the list after the thread had cleared a flag of the collector's phase or later, or is the new node, which then was popped from the pool at the thread's own version, the collector's or a later one. |
| AoaPhaseTheorems.PooledWereUnmarked | trace.c:371-381 | Every object on the pool at its current version was read as unmarked from a mark word of exactly that version. |
| AoaPhaseTheorems.NewerWordClosesPool | trace.c:315-331 | A sweeper that meets a word of a newer phase is behind the pool version and pushes nothing more. |
| AoaPhaseTheorems.WordsOnlyGrow | trace.c:38-50 | A step changes a mark word only to the mover's own phase, by one new bit or by emptying it for a larger tag. |
| AoaPoolInvariant.SlabIsCarved | allocator.c:218-232 | The caches carved from the chunks have different slots, all in the payload. |
| AoaPoolInvariant.ReachableInv | allocator.c:181-195 | The invariant of the pool (chain, owners, contents of every cache, claimed pages) holds after every schedule. |
| AoaPoolTheorems.HandedOutForGood | allocator.c:113-126 | What palloc has handed out at a version stays handed out and is not what the next step hands out. |
| AoaPoolTheorems.HandedOutOnce | allocator.c:113-151 | Over any run palloc never returns the same object twice at one version, to whichever threads. |
| AoaPoolTheorems.PopInstallsTrueSuccessor | allocator.c:269-281 | When the double-word CAS of pop succeeds it installs the successor the popped entry has at that moment, whatever happened since the head was read. |
| AoaPoolTheorems.DoneStaysDone | trace.c:384-404 | Claims of pages and versions of pushes are never undone by any later step. |
| AoaPoolTheorems.PageClaimedOnce | trace.c:391-402 | Over any run each sweep page is claimed at most once per version. |
| AoaPoolTheorems.CachePushedOnce | trace.c:315-331 | Over any run each cache is pushed at most once per version. |
| AoaPoolConservation.NothingLost | allocator.c:113-151 | While the pool has the version at which an object was freed, the object is handed out, or in a cache that is in the pool or with a thread. |
| AoaPoolConservation.OnePlace | trace.c:315-350 | What can still be handed out at the pool's version is in one place of one cache and has not been handed out. |
| AoaPoolConservation.OutWasHandedOut | allocator.c:113-126 | The recorded objects are exactly those that some step of the run has returned from palloc. |
| AoaPoolConservation.CountedIsClaimed | trace.c:391-402 | Every page number below the sweep counter has been claimed for its phase. |
| AoaPoolConservation.PageIsSweptThrough | trace.c:352-383 | The thread that claims a page tests every object of it, headers excepted, or is still on the way. |
| AoaPoolConservation.FreeIsRecorded | trace.c:332-350 | Every object that a sweeper finds free gets into a cache, unless the sweeper is still making room for it. |
| AoaPoolConservation.FreeIsAvailable | trace.c:332-350 | An object found free at the version the pool still has is handed out, available, or about to get its cache. |
| AoaPoolConservation.HandsOutPayload | trace.c:361-370 | Palloc hands out slots of the heap outside the headers only. |
| ConcurrentMarkProofs.GreyInvariant | trace.c:163-185 | Wherever the threads have stopped, the child of every object marked in the phase is null, marked, or visible in a busy thread's stack or its published slot. |
| ConcurrentMarkProofs.HeldIsVisible | trace.c:171-184 | What a busy thread holds, between reading a child and committing its slot as well, others see in its stack. |
| ConcurrentMarkProofs.MarkedIsClosed | trace.c:163-185 | In a single state in which all visible entries are marked, everything below a marked object is marked. |
| ConcurrentMarkProofs.TerminationIsSound | trace.c:163-218 | In such a single state everything reachable from the roots and hazard pointers of a thread that is done is marked. |
| ConcurrentMarkFinish.ReturnIsRightIff | trace.c:114-157 | When CheckFinish returns 1, everything that the thread's roots reach is marked if and only if no busy thread holds an unmarked object that they reach. |
| ConcurrentMarkFinish.FreshOrStillIsRight | trace.c:124-156 | It is all marked if every other thread was read outside the phase, or finished with something published in the phase or nothing ever, or busy and made no step between the reading of its slot 0 and the test of that object; otherwise threads may start, help and finish during both passes. |
| ConcurrentMarkFinish.DoneHasTested | trace.c:131-139 | CheckFinish returns 1 only if every entry it has tested is marked: an unmarked one it takes over. |
| ConcurrentMarkSweep.FreedWasUnreachable | trace.c:293-405 | What the phase puts into the pool and hands out was not reachable from the roots and hazard pointers of the thread that began the sweep, if its CheckFinish ended as in FreshOrStillIsRight. |
| ConcurrentMarkExamples.MissesOverwrittenSlot | trace.c:131-137 | A run of two threads over three objects in which CheckFinish returns 1 and a reachable object is not marked. |
| ConcurrentMarkExamples.FinishedIsNotEnough | trace.c:151-156 | A run of four threads in which it does so having seen every thread of the phase finished in both passes. |
| ConcurrentMarkExamples.KeepsGarbage | trace.c:131-139 | A run in which a slot left over from an earlier phase gets an unreachable object marked. |
| ConcurrentMarkExact.MarkedStaysWithin | trace.c:163-218 | After every schedule all marked objects are in any set that is closed under children and holds all roots and everything left over in the stacks. |
| ConcurrentMarkExact.MarksReachableOnly | trace.c:131-139 | If everything left over in the stacks is reachable from the roots or hazard pointers of some thread, so is everything that is ever marked. |
| ConcurrentMarkExact.BlindMarksReachableOnly | trace.c:124-147 | A single thread, and threads none of which has a root, mark nothing unreachable whatever is left over. |
| ConcurrentMarkExact.ReturnIsExact | trace.c:114-157 | Where nothing unreachable is left over and CheckFinish returns as in FreshOrStillIsRight, all that the thread's roots reach is marked and all that is marked some thread's roots reach; the two agree if the thread's roots reach everybody's. |
| ConcurrentMarkGarbage.ExactIff | trace.c:131-139 | For every heap, roots of every thread, and set of objects left over: no run marks anything unreachable if and only if there is at most one thread, or no root, or all that is left over is reachable. |
| ConcurrentMarkGarbage.Drain | trace.c:211-218 | From any state of a running phase a thread left alone comes to the end of its stack, with everything that was in it marked. |
| TraceStack.Mark | trace.c:38-50 | Undisturbed, the mark bit is set exactly if the word is of the phase, and no other bit changes. |
| TraceStack.TraceObj | trace.c:163-185 | An unmarked object is published and marked and its child is left just above the counter; of a marked one nothing changes. |
| TraceStack.TraceTop | trace.c:213-217 | One turn of the loop keeps the loop's invariant, does not raise the counter, and marks one more object or shortens the stack. |
| TraceStack.TraceMarkstack | trace.c:211-218 | From a child-closed mark set it ends on every heap, with cycles and sharing, marks exactly what the entries 1 to counter reach, leaves the set child-closed, and writes no place above its starting one. |
| TraceStack.Turn | trace.c:213-217 | Taking the top entry keeps: marked objects' children are marked or on the stack, and everything marked or on it is reachable from the starting entries. |
| TraceStack.EndsExact | trace.c:211-218 | With the stack empty the mark set is the old one and exactly what the starting entries reach. |
| TraceStack.ClosedReaches | trace.c:158-185 | In a child-closed mark set everything reachable from a marked object is marked. |
| SweepGeometry.MarkOfSlot | trace.c:24-31 | From the mark bit of a slot the slot can be computed back, and the bit lies in the header of its own chunk. |
| SweepGeometry.SlotOfMark | trace.c:24-31 | Every mark bit of a header is the bit of the slot computed from it. |
| SweepGeometry.PageSlotsExact | trace.c:352-371 | The slots that a page's cursor passes are exactly the payload slots in that page. |
| SweepGeometry.EverySlotOnce | allocator.h:15-25 | Over any number of chunks the pages have every payload slot exactly once and no header slot. |
| SweepGeometry.CursorAgrees | trace.c:352-381 | The sweeper's word and bit are the marker's word and bit for the object the cursor stands at. |
| Sweeper.Sweeper.ReturnCache | trace.c:315-331 | The cache is pushed exactly if the pool is still of the thread's version; otherwise it is cut down to one object and the pool is untouched. |
| Sweeper.Sweeper.SetAsFree | trace.c:332-350 | The object joins the cache, and a full cache is pushed first; in one function of the old state. |
| Sweeper.Sweeper.SweepWord | trace.c:372-379 | The 32 bits of one word free exactly the unmarked ones of the 32 slots they stand for. |
| Sweeper.Sweeper.SweepWords | trace.c:371-381 | The outer loop goes to the end of the page with word and object in step. |
| Sweeper.Sweeper.ProcessSweepPage | trace.c:352-383 | A page frees the unmarked ones of its slots, in order. |
| Sweeper.Sweeper.Sweep | trace.c:384-405 | Undisturbed, all pages are swept one after the other and the last cache is pushed; a sweeper the pool or the counter has left behind pushes nothing. |
| Sweeper.CursorMoves | trace.c:371-381 | After w words the two parts of the cursor belong together, for every word of every page. |
| Sweeper.PutAllFrees | trace.c:332-350 | Freeing a list of slots puts exactly these into the pushed caches and the current one, in order, and pushes only full caches; with a newer pool it pushes nothing. |
| Sweeper.SweepListsFree | trace.c:384-405 | Sweeping page by page is freeing the unmarked slots of all pages in order. |
| Sweeper.SweepPushes | trace.c:384-405 | The caches an undisturbed sweep pushes hold the unmarked payload slots; none is empty, all but the last are full. |
| Sweeper.SweepPartitions | trace.c:352-405 | They partition the unmarked payload slots: each exactly once, no marked one, nothing of a header. |
| PackedWords.DirtyWords | allocator.h:38-44 | Comparing, testing against a shifted phase, and clearing the low byte of dirtyNphase are equality, a tag test, and clearing the flag. |
| PackedWords.SweepWords | allocator.h:110-113 | PHASE, SCOUNTER and MAKE_SC are inverse to each other, equal words are equal pairs, and adding 1 takes the next page. |
| PackedWords.MarkWords | allocator.h:127-132 | Testing and setting a bit of a mark word is membership in and adding to its bits; is_cur_phase and the comparison of clearMarks are tests of the tag. |
| PackedWords.LinkWords | entry.h:24-35 | The deleted flag is independent of the address, and CAS on the word is CAS on address and flag. |
| PackedWords.KeysAndData | entry.h:45-48 | The key survives its 64-bit word, negative ones too; the data half is the key's sign. |
| ClearMarks.StartsInside | trace.c:428-435 | Every thread's share of the header begins inside it, for any number of threads. |
| ClearMarks.ClearChunk | trace.c:432-445 | From any starting word the wrapping loop clears every word of the header once and stops. |
| ClearMarks.ClearMarks | trace.c:426-447 | Afterwards no word of any chunk is below the phase, and none that was not below it has changed. |
| ClearMarks.ClearedWord | trace.c:426-447 | On records: words of earlier phases become empty words of this phase, others stay. |
| LockFreeListHeap.Absent | lfl-NoOrDelayRecl.c:116-162 | A reachable place below a key whose successor is above it shows that the key is not in the set. |
| LockFreeListHeap.InsertWrites | lfl-NoOrDelayRecl.c:73-85 | The insert CAS adds exactly its key, which was not in the set, and keeps the structure of the list. |
| LockFreeListHeap.MarkWrites | lfl-NoOrDelayRecl.c:104-106 | The mark CAS takes exactly its key, which was in the set, out. |
| LockFreeListHeap.UnlinkWrites | lfl-NoOrDelayRecl.c:127-138 | The unlinking CAS removes a marked node from the chain and leaves the set as it is. |
| LockFreeListTheorems.HistoryIsTheRun | lfl-NoOrDelayRecl.c:31-162 | The recorded heaps, beginnings and effects of calls are those of the run. |
| LockFreeListTheorems.Linearizable | lfl-NoOrDelayRecl.c:31-114 | Every call that returns has a moment between its beginning and its return at which the set justifies its result; an update changes the set in its own step at that moment. |
| LockFreeListTheorems.SetChangesOnlyAtUpdates | lfl-NoOrDelayRecl.c:63-162 | The set changes only at a successful insert CAS or mark CAS, by that call's key, never at an unlinking. |
| LockFreeListTheorems.ListStructure | lfl-NoOrDelayRecl.c:116-162 | Keys strictly increase along all pointers, and every connected unmarked node is reachable. |
| LockFreeListTheorems.MarkedNodesAreFrozen | lfl-NoOrDelayRecl.c:104-138 | A marked node never changes its successor, and no node its key. |
| LockFreeListTheorems.UnlinkedOnce | lfl-NoOrDelayRecl.c:127-138 | Each node is unlinked by at most one CAS of the whole run. |
| RefCountInvariant.LastReference | refcount.c:9-18 | When release finds the count at 2, its reference is the only one: no counted link, no fres and no newEntry refers to the node. |
| RefCountInvariant.UnlinkBalanced | lfl-RC.c:127-137 | Unlinking cur moves its counted link into a pending release and leaves the link to its successor as a debt of the thread, for every node. |
| RefCountInvariant.InsertBalanced | lfl-RC.c:57-71 | The insert CAS trades the link to cur for one to the new node, and all references of the call for pending releases. |
| RefCountSteps.StepBalanced | lfl-RC.c:32-154 | Every step changes count, links, held references and claims of every node in balance. |
| RefCountTheorems.ReachableInv | refcount.c:33-67 | The accounting invariant holds after every schedule. |
| RefCountTheorems.CountsAreExact | refcount.c:9-67 | At every moment the count of every node is twice (counted links + references held or about to be released - links made and not yet counted) plus the claim bit. |
| RefCountTheorems.ReferencedIsKept | refcount.c:48-56 | A node that is linked or that a thread refers to is unclaimed and its count is even and at least 2. |
| RefCountTheorems.ClaimedOnce | refcount.c:58-67 | A claimed node is in the charge of exactly one thread, once: on its free list or on the way to or from it. |
| RefCountTheorems.ClaimedIsUnlinked | refcount.c:58-67 | A claimed node is linked nowhere and referred to by nobody's fres; its count is odd, so no release finds 2. |
| RefCountTheorems.UnclaimedIsNotFree | refcount.c:25-46 | A node that is not claimed is on no free list, nor about to be. |
| RefCountTheorems.ClaimChanges | refcount.c:9-24 | Only the release that takes the last reference sets the claim bit, only newRC of the thread in charge clears it, and a stale release of a claimed node leaves it claimed. |
| RefCountTheorems.FreeListIsIntact | refcount.c:25-46 | Following nextEntry along a thread's free list finds exactly the nodes reclaimed and not yet reused, in order, whatever others do to their counts. |
| RefCountTheorems.ReleaseShrinks | refcount.c:58-67 | Each step of a release claims one more node or leaves less to do. |
| RefCountTheorems.ReleaseTerminates | refcount.c:58-67 | From every reachable state the release cascade along next comes to an end. |
| MoaPoolsTheorems.ReachableInv | allocatorOA.c:310-339 | The invariant of the pools holds after every schedule, with any depth of recursive calls. |
| MoaPoolsTheorems.VersionsAdvance | allocatorOA.c:33-63 | The versions of reclaim and toProcess move only through (v,v), (v+1,v), (v+1,v+2), (v+2,v+2); reclaim's head is frozen while odd; toProcess is empty when replaced, and by all that was reclaimed. |
| MoaPoolsTheorems.PopInstallsSuccessor | allocatorOA.c:99-114 | A successful pop takes the first cache and installs its true successor; the returned cache is cleared in the first branch; no assertion fails. |
| MoaPoolsTheorems.EveryNodeOnce | allocatorOA.c:123-157 | Every node is at all times in exactly one cache, one Recycle's working set, one call's hands, or the client's hands: none is lost or doubled. |
| MoaPoolsTheorems.NoDuplicates | allocatorOA.c:132-139 | No cache and no Recycle has a node twice. |
| MoaPoolsTheorems.EveryCacheOnce | allocatorOA.c:172-282 | Every cache is on exactly one stack or in one role of one thread, the stacks are what their heads lead to, and a dropped cache is empty. |
| MoaPoolsTheorems.HandedOutOnce | allocatorOA.c:172-185 | A node becomes the client's only out of the caller's own cache in palloc, and is not handed out again before it is given back. |
| MoaPoolsTheorems.PoolIsNotHollow | allocatorOA.c:190-202 | The cache palloc takes from the pool always has a node. |
| MoaPoolsTheorems.RecycledWasRetired | allocatorOA.c:123-157 | Every cache that Recycle works on, at any depth, was pushed on reclaim before the thread began to collect hazard pointers. |
| MoaPoolsTheorems.KeptIsUnprotected | allocatorOA.c:83-94 | A node that Recycle keeps for the pool is pointed to by no hazard pointer that has stood since before the collection began. |
| MoaHandshakeTheorems.StepKeeps | allocatorOA.c:66-76 | Every step of pools, flagging loops and clients keeps: flags lag by at most one version, a thread past its loop has reached every record, and a thread past its check is covered by every collector it has not heard of. |
| MoaHandshakeTheorems.AllAreFlagged | allocatorOA.c:66-76 | A thread that has left its flagging loop has raised every record to its version: two attempts are enough here too. |
| MoaHandshakeTheorems.SeenIsCleared | lfl-MOA.c:18-27 | What a client has seen of a version it has seen by clearing its flag. |
| MoaHandshakeTheorems.KeptIsSafe | lfl-MOA.c:54-66 | When Recycle keeps a node, a client that has passed its check with a hazard pointer to it, and has its CAS still to make, read that pointer after it had cleared a flag of Recycle's version or later, if it read it from the list; its new node the kept node cannot be, unless some client gave that node away before. |
| MoaHandshakeTheorems.NewIsClients | lfl-MOA.c:54-67 | Until its guarded CAS a thread's new node stays a client's, unless somebody hands it to pfree or pReturnAlloc. |
| SimpleSet.ProbesCover | simpleSet.c:20-24 | Within 2 * max tries the probes for any key reach every cell, although the sum wraps at 2^32 and max need not divide it. |
| SimpleSet.PlacedInsert | simpleSet.c:47-64 | Filling the empty cell at which the probes end keeps every value findable and none twice. |
| SimpleSet.AbsentWhenEmpty | simpleSet.c:66-78 | Where the probes for a key meet an empty cell, the key is not in the table. |
| SimpleSet.HashTable.constructor | simpleSet.c:32-38 | A new table is empty. |
| SimpleSet.HashTable.Clean | simpleSet.c:42-45 | A cleaned table is empty and valid again. |
| SimpleSet.HashTable.Insert | simpleSet.c:47-64 | It ends for every table and adds exactly the value, unless one of the two assertions refuses it, under exactly the stated conditions. |
| SimpleSet.HashTable.Retrieve | simpleSet.c:66-78 | It ends and answers exact membership, whenever there is an empty cell or the key is there. |
| SimpleSet.RetrieveEnds | simpleSet.c:66-78 | Some probe stops if and only if there is an empty cell or the key is in the table. |
| SimpleSet.CapacityRule | simpleSet.c:50-52 | The rule of hash_insert leaves an empty cell for every filling it admits if and only if max is at least 3. |
| SimpleSet.SmallTableFills | simpleSet.c:50-52 | With two cells, two insertions that the rule admits make every search for a third value endless. |
| HazardFilter.Collect | allocatorOA.c:78-94 | The table holds exactly the low words of the hazard pointers and keeps room, unless one of them is cut to zero, the one case in which an assertion fails. |
| HazardFilter.CutExactly | simpleSet.h:32 | An address is cut to zero exactly if it is a multiple of 2^32 and not 0. |
| HazardFilter.CollectTrips | allocatorOA.c:83-94 | Collecting a hazard pointer to 2^32 trips the assertion. |
| HazardFilter.Compact | allocatorOA.c:132-139 | In place, the kept nodes move to the front in order, the others are freed, and the rest of the cache is untouched, each tested against the table as the collections within the earlier pfrees have left it; it stops exactly if such a collection meets a hazard pointer that is cut to zero. |
| HazardFilter.FilterSplits | allocatorOA.c:132-139 | Kept and freed nodes together are the nodes of the cache, each as often as before. |
| HazardFilter.NoHazardIsKept | allocatorOA.c:123-157 | A node that is kept was, when tested, none of the hazard pointers of the last collection, although the table only has their low 32 bits. |
| HazardFilter.FreedAgrees | allocatorOA.c:123-157 | A node is freed again only if it agrees in the low 32 bits with a hazard pointer of the last collection before its test. |
| Barrier.AddKeeps | worker.c:72-74 | One more entry completes a round exactly when it is everybody's, and nobody is more than one round ahead. |
| Barrier.AssertionsHold | worker.c:72-82 | None of the three assertions ever fails, for any number of threads and calls. |
| Barrier.NobodyLeavesEarly | worker.c:72-82 | No thread leaves a round before every thread has entered it. |
| Barrier.RoundsTogether | worker.c:72-82 | Completed rounds of any two threads differ by one at most. |

## Left out

- Memory order: steps are sequentially consistent; the source relies on fences and on total store order.
- Phase and version numbers are unbounded, and so is the barrier's counter; the packed forms hold while they fit.
- A `verEntry` is read in one step; `allocatorOA.c:43-50` uses `reclaim.head` without looking again.
- `allocatorOA.c`: push and pop of `alc->head`, which has no version, are one step each.
- `AoaPhases` leaves open which pointers are read; `AoaPool` leaves open which objects are unmarked; `ConcurrentMark` has
  one phase, a fixed heap and one root, and frees objects in sets instead of caches. What ties them together is the phase
  tag: an object on the pool at a version was read from a mark word of that version (`AoaPhaseTheorems.PooledWereUnmarked`).
- ConcurrentMarkProofs.TerminationIsSound: states the condition of one single state, which `CheckFinish` does not
  establish, since it reads the stacks one slot after the other; what it does establish is in `ConcurrentMarkFinish`.
- ConcurrentMarkSweep.FreedWasUnreachable: speaks of the roots of the thread that began the sweep, not of hazard pointers
  that others collected later.
- LockFreeListTheorems.UnlinkedOnce: is about the list without reclamation, where no node is used again.
- MoaPools: Recycle's compaction is a pair of sequences there and an array in `HazardFilter`, where what the collections
  of a `pfree` find is given; a node that only agrees with a hazard pointer in its low 32 bits is the action's choice.
- RefCount leaves out keys: the outcome of a comparison is a choice. DecrementAndTestAndSet and clearLowestBit are one
  step each, because a failed CAS of theirs changes nothing.
- LockFreeList is a set of keys: `ListInsert` does not use `data`.
- Several registered roots and arrays as roots (`trace.c:219-291`): the mark stack is shared between them and the array
  length is rounded down.
- Progress, fairness, the retry limit of `palloc`, memory exhaustion, `usleep`, thread creation and pinning.
- `lfhash.c`, `allocatorNR.c`, `debugging.c`, `rand.h`, the driver and the scripts: dispatch, copies and diagnostics.
