# A model of shredder's collector

Shredder is a concurrent mark-sweep garbage collector for Rust. There is no root set to start from: a
collection goes through all tracked allocations and stamps the `Gc` handles it finds inside them, takes every
handle without a stamp for a root, marks from there with a parallel work queue, sweeps what is not marked, and
leaves the deallocation to a background thread. Meanwhile the program allocates, clones, drops, moves handles
and updates atomic cells. This project models that machinery and proves what it is for.

`dafny verify dfyconfig.toml` checks everything.

## How it is laid out

| files | contents |
|---|---|
| `Heap`, `Steps` | the shared state; every atomic step of the program's threads, the collecting thread, the mark workers and the dropper; liveness |
| `Invariant`, `ProgramProofs`, `DropperProofs`, `CollectorProofs`, `MarkProofs` | the inductive invariant and, for each kind of step, that it is kept |
| `Theorems`, `MarkTheorems` | what follows for every run: safety, frozen graph, scan discipline, order of deallocation, the result of marking and that it ends |
| `Pointers`, `Warrants`, `DataLife` | what pointers, warrants and allocations are, from the history of a run: the last write to a cell, gets minus puts, the last step on an allocation |
| `DropperProgress` | the dropper can go on, every request to sync up is answered within a known number of its steps, and what the answer means |
| `Completeness` | the other half of exactness under interleaving: garbage goes |
| `UntimelyDrop`, `UntimelyRuns` | the one assumption about the program, exactly when it is needed, and runs that show it |
| `TraceGraph`, `QuietCollector` | an undisturbed collection as methods that update heap objects in place, and what it computes |
| `ChunkedList`, `ChunkedUpdates`, `ChunkedRetain`, `ChunkedArrays` | the tracking list: racing operations as steps, whole inserts, removals, iterations and retains over a run, and the operations as methods on arrays |
| `LockoutProtocol`, `LockoutCounts`, `Lockouts` | the per-allocation lockout: racing threads as steps, operations counted over a run, and the operations as loops of atomic accesses |
| `SpinlockProtocol`, `Spinlocks` | the same for the lock that protects atomic cells |
| `Trigger` | the decision to collect, and the counts it subtracts |
| `DataList` | the collector and its data list in joint steps, which gives `Trigger` what it asks of the sweep |
| `HandleList` | the collector and its handle list in joint steps: the handle pass of `Steps` is what one iteration over the slots does |

In `Steps`, a run is any interleaving of steps, each one atomic access: the data pass, the handle pass and the
sweep look at one slot per step, a mark worker does one access per step. A collection can begin whenever none
is going on. Handles and data may appear and disappear during a pass as the lists allow. "Live" means: in every
set that contains the data in use and the pointers being loaded from atomic cells and is closed under following
handles held by the program or lying in the set; `Heap.LiveIsReachability` says that this is the same as being
at the end of a chain of handles.

`Lockouts` and `Spinlocks` let the other threads interfere between any two accesses, finitely often; a loop
that would otherwise spin or wait for ever returns without its lock, and the contract says that this happens
only when some other thread never lets go.

## What is assumed

The code does not enforce these; the theorems rely on them.

- Timely drops: a handle that is in the handle list when the handle pass begins is not dropped before the pass
  has come to it (`Steps.DropTimely`). Clones, moves, new handles and drops of handles already passed are free.
  `UntimelyDrop.UntimelyDropExact` says for every other drop, of a `Gc` or of an `AtomicGc`, when it is harmful:
  exactly when some other handle that was not found in locked data points to something that the collection does
  not get to without the dropped one. `UntimelyRuns.SafetyNeedsTimelyDrops` is a run in which cloning a handle
  and dropping the original leaves the program with a handle to swept data, and `UntimelyRuns.WalkHappens` does
  the same for a program that walks down a list by `cur = cur.next.clone()`, which `DerefGc` allows without any
  warrant (`src/smart_ptr/deref_gc.rs:163-168`). The comment at `src/collector/collect_impl.rs:15-20` claims
  that this cannot happen; the code does not prevent it.
- `Scan`: it is deterministic and reports only handles inside the allocation, each in at most one allocation.
  It may report fewer than all.
- Destructors and finalizers drop only handles inside their own data, and publish none. Dropping a value drops
  every handle inside it that its `Scan` reports.
- One `AtomicGc` per backing handle: the derived `Clone` of `AtomicGc` (`src/atomic.rs:22`), which would share
  a list item between two of them, is not used.
- Each `Arc` is put into a tracking list at most once, as all callers of `insert` do.
- Counters have room: fewer than 2^64-2 shared warrants on one allocation, fewer than 2^60 inclusive guards,
  fewer than 15 * 2^60 failed attempts during one collection, fewer than 2^64 items and collections.
  `LockoutProtocol.BoundIsNeeded` and `SpinlockProtocol.StepKeepsExactly` state exactly which access needs the
  room; `LockoutProtocol.OverflowStrands`, `SpinlockProtocol.TooManyGuards` and
  `SpinlockProtocol.TooManyFailures` are runs that come to the end of it, and what happens then.

## Model

| member | source | states |
|---|---|---|
| Heap.LiveIsReachability | src/scan.rs:6-20 | the least-closed-set and the path definition of what the program can reach agree, in both directions |
| Invariant.InitInv | src/collector/mod.rs:97-115 | the invariant holds in the collector's first state, with collection number 2 |
| Invariant.LiveNotDoomed | src/collector/collect_impl.rs:124-144 | nothing live is swept, freed, or left unmarked by a finished mark phase |
| Invariant.LiveCovered | src/collector/collect_impl.rs:71-117 | during the handle pass and the mark phase everything live is marked, new, or still led to by what is queued |
| ProgramProofs.ProgramStepInv | src/collector/mod.rs:173-306 | every step of the program (allocate, cyclic construction, clone, drop, move, get, atomic operations) keeps the invariant |
| DropperProofs.DropperStepInv | src/collector/dropper.rs:29-58 | every step of the dropper (receive, flag, invalidate, destructor read, free) keeps the invariant |
| CollectorProofs.CollectorStepInv | src/collector/collect_impl.rs:14-164 | every step of the collecting thread, slot by slot, keeps the invariant |
| MarkProofs.WorkerStepInv | src/collector/collect_impl.rs:85-117 | every access of a mark worker keeps the invariant |
| MarkProofs.UnmarkedIsLocked | src/collector/collect_impl.rs:87-98 | data that a worker finds neither new nor marked is data whose warrant the collector holds |
| Theorems.RunInv | src/collector/collect_impl.rs:14-164 | the invariant holds in every state of every interleaving, over any number of collections |
| Theorems.ReachableIsIntact | src/collector/collect_impl.rs:43-144 | safety: in every state of every run, whatever a chain of handles from the program leads to is neither swept nor freed |
| Theorems.SweptIsUnreachable | src/collector/collect_impl.rs:124-144 | at the very step that sweeps an allocation no chain of handles leads to it, before and after |
| Theorems.NoDangling | src/collector/collect_impl.rs:124-150 | a registered handle points at intact data, or lies in swept or condemned data, is reported, and points into the one batch under way |
| Theorems.DestructorReads | src/collector/mod.rs:292-306 | a destructor reading through a handle of its own data meets intact data, or data whose flag makes the read fail |
| DropperProofs.DropTarget | src/collector/dropper.rs:33-52 | the target of a handle in data being deallocated is not doomed, or is in the same batch and flagged |
| Theorems.StampedIsLocked | src/collector/collect_impl.rs:51-61 | until the end of marking, the handles with the current stamp are exactly those reported by an allocation that the collector has locked |
| Theorems.LockedIsFrozen | src/collector/collect_impl.rs:51-119 | no step by anyone changes which handles lie in a locked allocation, or those handles, or unlocks it before the release |
| Theorems.TargetsAreStable | src/collector/collect_impl.rs:23 | while a collection is going on no step changes the target of any handle, atomic cells included |
| Theorems.LoadedIsIntact | src/atomic.rs:63-85 | a pointer read from an atomic cell and not yet wrapped in a registered handle leads to intact data, and no collection has begun |
| Theorems.ScanDiscipline | src/collector/collect_impl.rs:92-114 | a mark worker scans tracked data whose warrant the collector holds, no other worker scans it, and it is its only scan of the collection |
| Theorems.StampDiscipline | src/collector/collect_impl.rs:51-61 | the data pass stamps only handles reported by the tracked allocation it has just locked; half-built data is never scanned |
| Theorems.NumbersAreFresh | src/collector/mod.rs:107-113 | between collections tracked data carries mark 0 or the previous number, which is not 0, and every stamp is older than the current number |
| Theorems.NoFalseRoots | src/collector/collect_impl.rs:30-34 | when the collector's sync-up has returned, no swept data is left unfreed and no reported handle of freed data is registered |
| Theorems.FreedInOrder | src/collector/dropper.rs:33-52 | an allocation is freed only when its whole batch is flagged, and that batch is all the swept data there is |
| Theorems.FreedOnce | src/collector/dropper.rs:42-52 | in no run is an allocation freed twice |
| Theorems.FreedForever | src/collector/dropper.rs:42-52 | what is freed stays freed |
| Theorems.InFlightIsKept | src/collector/mod.rs:232-243 | data whose insertion is not counted yet is reachable through the handle that the inserting thread holds, is intact, and no sweep takes it |
| Theorems.FlagShuts | src/smart_ptr/gc.rs:120-151 | in every run, from the raising of the flag to its clearing no read goes to the half-built data and nothing is written there, whoever has a handle to it |
| Theorems.GetMeetsUnwritten | src/smart_ptr/gc.rs:120-151 | at any other time a reachable handle to half-built data can be read through, for such data is never locked, and the reader is left with a warrant on data that is not written |
| Theorems.CyclicWindow | src/collector/mod.rs:173-187 | a run in which a clone leaked by the closure of `new_cyclic` is read after the flag is cleared and before the value is written |
| Pointers.CellHoldsLastPut | src/atomic.rs:35-217 | in every run an atomic cell holds what was last put into it: by its creation, a store, a swap, or a compare-and-swap that met its `current` |
| Pointers.ReadFindsLastPut | src/atomic.rs:63-146 | what a load or a swap returns points to what was last put into the cell before it, whatever happens until the returned pointer is made |
| Pointers.PutIsLast | src/atomic.rs:91-146 | what is put into a cell stays the last put until the next one |
| Pointers.CasDecides | src/atomic.rs:154-217 | a compare-and-swap writes if and only if `current` points to what was last put into the cell |
| Pointers.KeepsOrigin | src/collector/mod.rs:208-276 | a handle that is not a cell points for ever to what it was made for, a clone to what its original points to |
| Pointers.OwnerIsLastMove | src/collector/mod.rs:245-288 | at any time a handle is where the last step that moved it put it: with the program, inside data and reported or not, or gone |
| Pointers.HandIsLastRead | src/collector/mod.rs:335-344 | a thread holds a guard from its taking to its giving up, and has in hand what its last read found, or nothing once it has made a handle of it |
| Pointers.GuardBlocks | src/collector/collect_impl.rs:23 | while a thread holds a guard no collection is going on and none begins |
| Warrants.WarrantsConserved | src/collector/mod.rs:292-306 | in every run the lock of an allocation is shared by as many as gets, destructors' included, have been made on it and not been given back, or exclusive, and then by none |
| Warrants.HeldIsLeftAlone | src/smart_ptr/gc.rs:205-219 | from a get until as many puts as gets have been made, no step locks, stamps in, or sweeps the data, and no worker scans it |
| DataLife.LifeIsLastStep | src/collector/mod.rs:173-243 | how far an allocation has come, whether its flag is up, and whether its insertion is still to be counted are what the last steps on it made them |
| DropperProgress.DropperCanGoOn | src/collector/dropper.rs:29-58 | while a batch is under way or a message waits, the dropper can take a step |
| DropperProgress.RequestIsAnswered | src/collector/mod.rs:320-332 | every request to sync up is answered as soon as the dropper has taken as many steps as lay ahead when it was made |
| DropperProgress.SyncWaitsForBatches | src/lib.rs:171-189 | when a request is answered, everything that had been swept by finished sweeps when it was made is deallocated |
| DropperProgress.SyncOvertakesSweep | src/lib.rs:171-189 | and only that: a request made during a sweep can be answered before what the sweep has taken out is deallocated |
| MarkTheorems.MarkedIsTraceable | src/collector/collect_impl.rs:82-117 | when the queue is empty and the workers rest, exactly the data in use and the non-new data traced from the roots is marked |
| MarkTheorems.TraceableStays | src/collector/collect_impl.rs:82-117 | what is traceable does not change during the mark phase, whatever program, workers and dropper do |
| MarkTheorems.MarkResult | src/collector/collect_impl.rs:82-117 | what is marked at the end is what was traceable at the beginning |
| MarkTheorems.ScheduleIndependent | src/collector/collect_impl.rs:82-117 | two mark phases that begin with the same graph, with any numbers of workers and any schedules, mark the same data |
| MarkTheorems.WorkerAdvances | src/collector/collect_impl.rs:85-117 | every access of a worker lowers a bound made of unmarked data, queued and half-done work |
| MarkTheorems.OthersNeutral | src/collector/collect_impl.rs:85-117 | no step of anyone else raises that bound |
| MarkTheorems.MarkingEnds | src/collector/collect_impl.rs:85-117 | in every run the number of worker steps of a mark phase is at most the bound at its beginning |
| MarkTheorems.MarkingCanGoOn | src/collector/collect_impl.rs:83-117 | as long as marking has not ended, some worker can take a step |
| Completeness.EnclosedIsDead | src/collector/collect_impl.rs:15-20 | nothing in a set of unused data that is pointed to only from within is live |
| Completeness.StepForlorn | src/collector/collect_impl.rs:43-144 | no step of anyone gets hold of such a set, makes a root of a pointer into it, marks it or unlocks it early |
| Completeness.GarbageGoes | src/collector/collect_impl.rs:30-150 | a set of tracked data that nobody outside points into when a collection begins is swept by that collection, cycles included, in every interleaving |
| Completeness.UnreachableIsIsolated | src/scan.rs:15-16 | if the handles of unreachable data are reported, the unreachable data as a whole is such a set |
| Completeness.AllGarbageGoes | src/collector/collect_impl.rs:30-150 | then everything tracked that no chain of handles leads to at the beginning is swept by that collection |
| UntimelyDrop.UntimelyDropExact | src/collector/mod.rs:245-250 | dropping a handle the pass has not seen leaves no dangling handle in any continuation if and only if whatever other unstamped handles point to is covered without it |
| UntimelyDrop.RedundantIsCoverage | src/collector/collect_impl.rs:71-76 | that condition is the coverage part of the invariant after the drop |
| UntimelyDrop.NeededBreaks | src/collector/collect_impl.rs:71-144 | the harmful half: a continuation, constructed, that sweeps what the other handle points to and leaves that handle as it was |
| UntimelyDrop.CloneThenDropExact | src/collector/mod.rs:245-263 | cloning an unseen handle and dropping the original is harmless to the program in every continuation if and only if its target is covered without it |
| UntimelyDrop.WalkBreaks | src/smart_ptr/deref_gc.rs:163-168 | cloning a handle out of the data an unseen handle points to and dropping the latter loses what the clone points to, if that is not covered |
| UntimelyRuns.WalkHappens | src/smart_ptr/deref_gc.rs:163-168 | a concrete run from the first state in which walking down a list of two does so |
| UntimelyDrop.CoveredIsSafe | src/collector/mod.rs:245-263 | clone and drop, the harmless half: every continuation keeps what the program reaches |
| UntimelyDrop.UncoveredBreaks | src/collector/mod.rs:245-263 | clone and drop, the harmful half: a continuation that sweeps what the program still holds |
| UntimelyRuns.SafetyNeedsTimelyDrops | src/collector/collect_impl.rs:15-20 | a concrete run from the first state in which a program keeps a handle to swept data |
| TraceGraph.ReachedIsTraced | src/scan.rs:15-16 | however little `Scan` reports, what the program can reach is kept |
| TraceGraph.TracedIsReached | src/collector/collect_impl.rs:43-117 | when `Scan` reports everything, exactly what the program can reach is kept, so unreachable cycles go |
| TraceGraph.MarkVisit | src/collector/collect_impl.rs:89-113 | visiting fresh data keeps the work-queue invariant: marked or queued is exactly what tracing leads to so far |
| TraceGraph.MarkDone | src/collector/collect_impl.rs:83-117 | with an empty queue the marked set is the traced set |
| QuietCollector.Collector.constructor | src/collector/mod.rs:97-115 | a new collector is valid, with number 2 and empty lists |
| QuietCollector.Collector.Track | src/collector/mod.rs:208-243 | registers one new handle and tracks its new data, with whatever handles move in with the value, and keeps the heap valid |
| QuietCollector.Collector.CloneHandle | src/collector/mod.rs:252-263 | registers one new handle to the same data, and keeps the heap valid |
| QuietCollector.Collector.DropHandle | src/collector/mod.rs:245-250 | takes exactly this handle off the list, and keeps the heap valid |
| QuietCollector.Collector.Get | src/collector/mod.rs:292-306 | a handle that does not lie in garbage gives a warrant on intact data, which is in use from then on |
| QuietCollector.Collector.Put | src/collector/mod.rs:54-57 | giving a warrant back leaves the data in use exactly as long as there is another |
| QuietCollector.Collector.MoveIn | src/wrappers.rs:98-102 | through a guard, and so with a warrant out, a handle of the program may be put inside data; ownership stays unique and the heap valid |
| QuietCollector.Collector.Stamp | src/collector/collect_impl.rs:56-61 | stamps exactly the reported handles |
| QuietCollector.Collector.VisitData | src/collector/collect_impl.rs:43-67 | locks and stamps, or marks data in use; new data is noted |
| QuietCollector.Collector.DataPass | src/collector/collect_impl.rs:42-67 | after the loop, stamped are exactly the handles found in data not in use, marked exactly the data in use |
| QuietCollector.Collector.HandlePass | src/collector/collect_impl.rs:69-76 | the roots are exactly the registered handles found in no data that is not in use |
| QuietCollector.Collector.Visit | src/collector/collect_impl.rs:85-117 | one turn of the work loop keeps the queue invariant and marks more or shortens the queue |
| QuietCollector.Collector.MarkPass | src/collector/collect_impl.rs:80-117 | the loop ends with exactly the traced data marked |
| QuietCollector.Collector.ReleasePass | src/collector/collect_impl.rs:118-119 | gives back every warrant |
| QuietCollector.Collector.SweepPass | src/collector/collect_impl.rs:121-144 | keeps, in order, the new and the marked data and returns the rest |
| QuietCollector.Collector.RunPasses | src/collector/collect_impl.rs:36-159 | the passes together: list, batch, marks, stamps, number and recorded count afterwards |
| QuietCollector.Collector.Collect | src/collector/collect_impl.rs:14-164 | finishes earlier garbage first, sweeps what only the handles in it pointed to, keeps exactly what tracing leads to and sends exactly the rest to the dropper |
| QuietCollector.Collector.CheckThenCollect | src/collector/mod.rs:346-360 | collects if and only if a collection is due by the counts, changes nothing otherwise, and leaves counts by which only a lack of handles asks for the next one |
| QuietCollector.Collector.SweptIsPointedToBySwept | src/collector/collect_impl.rs:124-144 | a handle to something swept is reported by something swept |
| QuietCollector.Collector.GoneForGood | src/collector/dropper.rs:33-52 | after a batch is deallocated no remaining handle points into it and no remaining data owns a removed handle |
| QuietCollector.FilterCuts | src/concurrency/chunked_ll.rs:200-214 | in a list without repetition, leaving one element out is cutting it out where it is |
| QuietCollector.Collector.RemoveHandle | src/concurrency/chunked_ll.rs:200-214 | a search that cuts the handle out where it finds it leaves exactly the others, in order, and does nothing when the handle is gone |
| QuietCollector.Collector.InvalidateAll | src/collector/alloc.rs:160-163 | the loop removes exactly the given handles |
| QuietCollector.Collector.RemovedTwice | src/collector/alloc.rs:171-184 | invalidating by scan and again by finalizer removes the union, each handle once |
| QuietCollector.Collector.Deallocate | src/collector/alloc.rs:153-204 | a registered handle goes exactly if it lies in a value that is dropped, or is reported by one that is not, or is invalidated by the finalizer; the data is freed once, after its whole batch is flagged |
| QuietCollector.Collector.DropBatch | src/collector/dropper.rs:33-52 | flags the whole batch, frees each member once, and a handle goes exactly if some member's action takes it |
| QuietCollector.Collector.Synchronize | src/collector/mod.rs:320-332 | on return the mail is empty, the batch freed and the heap valid without it |
| QuietCollector.Collector.HandlesConserved | src/collector/alloc.rs:153-204 | if `Scan` reports everything, the handles that outlast a batch are exactly those held outside and those in retained data |
| QuietCollector.Collector.RunWithGcCleanup | src/lib.rs:204-211 | after the clean-up exactly the traced data is left, the rest is freed, and handles are conserved |
| ChunkedList.StepKeeps | src/concurrency/chunked_ll.rs:142-234 | every atomic step of insert, growth, remove, retain and iteration keeps the list's invariant |
| ChunkedList.RunInv | src/concurrency/chunked_ll.rs:122-234 | the invariant holds in every state of every interleaving |
| ChunkedList.SlotInOnePlace | src/concurrency/chunked_ll.rs:142-214 | each slot is exactly one of occupied, queued once, held by one operation |
| ChunkedList.SlotsAddUp | src/concurrency/chunked_ll.rs:142-174 | occupied, queued and held slots add up to 1024 times the number of chunks |
| ChunkedList.WalkFindsAll | src/concurrency/chunked_ll.rs:44-60 | following `next` from the head visits every published chunk, whatever growth raced |
| ChunkedList.StepRefinesSet | src/concurrency/chunked_ll.rs:176-214 | the store of an insert adds one item, a removal takes out its own item and no other even if the slot was reused, nothing else changes the set |
| ChunkedList.RemovedForGood | src/concurrency/chunked_ll.rs:200-214 | a removed item never comes back, so removing it again changes nothing |
| ChunkedList.IterationComplete | src/concurrency/chunked_ll.rs:35-60 | over any run, an iteration reports every item that is in the list from its beginning to its end exactly once, no item twice, and only items that were in the list meanwhile |
| ChunkedUpdates.NoInsertIsLost | src/concurrency/chunked_ll.rs:176-198 | in every run an item that was passed to an insert is on its way, or in its slot and about to be counted, or has been returned |
| ChunkedUpdates.RemovalIsThrough | src/concurrency/chunked_ll.rs:200-214 | when a removal is through its item is not in the list, whoever took it out |
| ChunkedRetain.RetainLooksOnce | src/concurrency/chunked_ll.rs:62-83 | over any run, a retain of a chunk looks at each of its slots exactly once |
| ChunkedRetain.RetainFilters | src/concurrency/chunked_ll.rs:62-83 | over any run, an item of the chunk that no one else takes out is in the list afterwards if and only if the one verdict on it was to keep it |
| ChunkedRetain.VerdictHolds | src/concurrency/chunked_ll.rs:71-81 | a condemned item is gone when the retain is through, whoever took it out |
| ChunkedList.EstimateExact | src/concurrency/chunked_ll.rs:232-234 | the estimate is the number of items corrected by the operations in flight if and only if that is in range; at rest the correction is zero |
| ChunkedList.NoUnderflow | src/concurrency/chunked_ll.rs:186-192 | the corrected count is not negative while the items not yet counted are in their slots |
| ChunkedList.EstimateCanWrap | src/concurrency/chunked_ll.rs:75-81 | a run in which a retain overtakes an insert's count and the estimate wraps around |
| ChunkedArrays.ChunkedLinkedList.constructor | src/concurrency/chunked_ll.rs:123-140 | a valid empty list with one chunk, all its slots queued |
| ChunkedArrays.ChunkedLinkedList.Expand | src/concurrency/chunked_ll.rs:142-173 | links a new chunk and queues its slots, contents unchanged |
| ChunkedArrays.ChunkedLinkedList.Insert | src/concurrency/chunked_ll.rs:176-198 | puts the reference into one slot that held nothing, and returns the place |
| ChunkedArrays.ChunkedLinkedList.Remove | src/concurrency/chunked_ll.rs:200-214 | empties the place if and only if it still holds this very reference |
| ChunkedArrays.ChunkedLinkedList.RetainThis | src/concurrency/chunked_ll.rs:62-83 | empties exactly the unwanted slots of one chunk |
| ChunkedArrays.ChunkedLinkedList.ParRetain | src/concurrency/chunked_ll.rs:216-222 | chunk after chunk, undisturbed, filters the contents |
| ChunkedArrays.ChunkedLinkedList.ParIter | src/concurrency/chunked_ll.rs:224-230 | reports the content of every occupied place once |
| LockoutProtocol.StepKeeps | src/concurrency/lockout.rs:28-132 | every atomic step keeps the lockout's invariant |
| LockoutProtocol.Exclusion | src/concurrency/lockout.rs:28-86 | the counter is the signpost exactly when there is one exclusive warrant and no shared one, otherwise it counts the shared ones |
| LockoutProtocol.ExclusiveIffFree | src/concurrency/lockout.rs:70-86 | an exclusive warrant is granted if and only if there is no warrant |
| LockoutProtocol.DropsSucceed | src/concurrency/lockout.rs:93-132 | neither `Drop` assertion can fail, and the exclusive drop leaves the counter at zero |
| LockoutCounts.WarrantsConserved | src/concurrency/lockout.rs:28-132 | in every run the shared warrants out are the gets begun and not still under way minus the drops begun and not still under way, and the exclusive one is there if it was got once more than dropped |
| LockoutCounts.AllGivenBack | src/concurrency/lockout.rs:93-132 | when nothing is under way and everything handed out has been dropped, the counter is zero and the mutex free |
| LockoutCounts.SomeoneCanGo | src/concurrency/lockout.rs:28-132 | unless all operations under way wait for a notification, one of them can go on |
| LockoutProtocol.NoLostWakeUp | src/concurrency/lockout.rs:46-67 | while a thread waits there is an exclusive warrant, or its dropper holds the mutex with the notification still to send |
| LockoutProtocol.NotifyWakesAll | src/concurrency/lockout.rs:118-131 | a notification leaves no one waiting or about to wait |
| LockoutProtocol.BoundIsNeeded | src/concurrency/lockout.rs:34-43 | after a step the signpost stands for an exclusive warrant if and only if the step is not an exchange that counts up from one below the signpost |
| LockoutProtocol.ManyWarrants | src/concurrency/lockout.rs:28-44 | every number of warrants below the signpost is reached by a run |
| LockoutProtocol.OverflowStrands | src/concurrency/lockout.rs:34-67 | from the last of these, the next warrant puts the signpost up with no exclusive warrant there, and the getter after it waits with nobody to notify it |
| Lockouts.Lockout.GetWarrant | src/concurrency/lockout.rs:28-68 | fast path, then mutex and condition variable: starts to wait only with the signpost up, returns with one warrant more and the mutex free, or waits for ever only for an exclusive warrant that is kept for ever |
| Lockouts.Lockout.GetExclusiveWarrant | src/concurrency/lockout.rs:70-86 | succeeds exactly when the access finds no warrant |
| Lockouts.Lockout.DropWarrant | src/concurrency/lockout.rs:93-111 | gives one warrant up; the assertion in the loop holds |
| Lockouts.Lockout.DropExclusiveWarrant | src/concurrency/lockout.rs:118-131 | takes the signpost down under the mutex, where the exchange succeeds, and leaves nobody waiting |
| SpinlockProtocol.StepKeepsExactly | src/concurrency/atomic_protection.rs:48-58 | a step keeps the guards straight if and only if the tracker has room for it |
| SpinlockProtocol.ManyGuards | src/concurrency/atomic_protection.rs:48-53 | every number of inclusive guards below the sentinel is reached by a run |
| SpinlockProtocol.TooManyGuards | src/concurrency/atomic_protection.rs:48-58 | from the last of these, the next attempt succeeds and puts the sentinel up with no exclusive guard there, and the one after it fails and leaves its increment behind |
| SpinlockProtocol.TooManyFailures | src/concurrency/atomic_protection.rs:48-58 | a run in which failed attempts wrap the tracker around, so that an inclusive guard is given out beside the exclusive one |
| SpinlockProtocol.Exclusion | src/concurrency/atomic_protection.rs:21-58 | an exclusive guard excludes all others although failed attempts are never taken back; the tracker counts guards, or is the sentinel plus failed attempts |
| SpinlockProtocol.WhoGetsIn | src/concurrency/atomic_protection.rs:21-58 | an inclusive attempt succeeds if and only if there is no exclusive guard, the exclusive swap if and only if there is no guard |
| SpinlockProtocol.DropsAreExact | src/concurrency/atomic_protection.rs:71-87 | storing zero forgets no guard and the subtraction never wraps around |
| SpinlockProtocol.GuardsConserved | src/concurrency/atomic_protection.rs:21-87 | in every run the inclusive guards are those got and not dropped, and whoever began to lock exclusively is still trying, has the guard or has dropped it |
| SpinlockProtocol.AllGivenBack | src/concurrency/atomic_protection.rs:71-87 | when nobody is trying and every guard has been dropped, the tracker is zero |
| Spinlocks.AtomicProtectingSpinlock.LockExclusive | src/concurrency/atomic_protection.rs:21-46 | returns as the only holder, or spins for ever only on a guard that is kept for ever |
| Spinlocks.AtomicProtectingSpinlock.LockInclusive | src/concurrency/atomic_protection.rs:48-58 | succeeds exactly when there is no exclusive guard, and leaves its increment behind when it fails |
| Spinlocks.AtomicProtectingSpinlock.DropInclusive | src/concurrency/atomic_protection.rs:82-87 | takes exactly one guard off |
| Spinlocks.AtomicProtectingSpinlock.DropExclusive | src/concurrency/atomic_protection.rs:71-76 | wipes out the failed attempts and no guard |
| Spinlocks.AtomicProtectingSpinlock.GetCollectionBlocker | src/collector/mod.rs:335-344 | also when `gc_lock` is free before the exclusive guard is gone, returns with a guard, or waits for ever only for an exclusive guard that is never given up |
| Trigger.GcTrigger.constructor | src/collector/trigger.rs:60-70 | the default percentages, and no collection recorded |
| Trigger.GcTrigger.ShouldCollect | src/collector/trigger.rs:26-52 | due if and only if there is enough data and too few handles, nothing recorded, or growth to at least the recorded count times one plus the share; also what crossed counts would do |
| Trigger.DueByDefault | src/collector/trigger.rs:4-6 | with the default shares, in whole numbers: from 666 allocations on, when there are at most nine handles for ten of them, nothing is recorded, or there are seven quarters of what is recorded |
| Trigger.FewerHandlesSooner | src/collector/trigger.rs:34-39 | fewer handles never make a collection less due |
| Trigger.MoreDataSooner | src/collector/trigger.rs:26-52 | more data never makes one less due, if the counts have not crossed |
| Trigger.DueWithoutHandles | src/collector/trigger.rs:29-39 | without any handle one is due if and only if there are 666 allocations |
| Trigger.OnlyFewHandlesAskAgain | src/collector/trigger.rs:41-51 | against the count just recorded only a lack of handles makes a collection due |
| Trigger.GrowthShare | src/lib.rs:126-131 | the computed share reaches the limit exactly when the count reaches the documented product; code and documentation differ if and only if it equals the product |
| Trigger.OnlyGrows | src/collector/collect_impl.rs:124-154 | while no sweep is going on the data count does not go down, inserts in flight included |
| Trigger.CountsNeverCross | src/collector/trigger.rs:41 | at every check the data count is at least the recorded one, if the sweep spares what is not counted yet |
| DataList.StepsAreAllowed | src/collector/collect_impl.rs:124-144 | in joint runs of collector and data list the sweep does spare it |
| DataList.SweepSparesUncounted | src/collector/collect_impl.rs:124-144 | no verdict of a sweep is against data whose insertion is not counted yet |
| DataList.CountsNeverCross | src/collector/trigger.rs:41 | so in every joint run the subtraction at a check is exact, without that assumption |
| HandleList.StepKeeps | src/collector/mod.rs:219-288 | every joint step of heap and handle list, with drops at any time, keeps the items in the slots equal to the registered handles and the iteration in step with the handle pass |
| HandleList.ListLeads | src/collector/collect_impl.rs:71-76 | the list alone grants what the heap's steps ask for: a stored handle is new, a handle taken out or loaded is registered, and when the iteration ends every handle that the pass had to see is seen or gone |
| HandleList.SlotsHoldHandles | src/collector/mod.rs:219-288 | in every joint run the slots hold exactly the registered handles |
| HandleList.RootsAreReported | src/collector/collect_impl.rs:69-82 | marking begins with exactly the handles that the iteration has reported and that carry an older stamp |
| HandleList.PassFindsRoots | src/collector/collect_impl.rs:69-82 | over any joint run, a handle that is registered when a handle pass begins and when it ends becomes a root if and only if it was not found inside locked data |

The documentation of the trigger (`src/lib.rs:126-131`) says that a collection is due when the count is more
than the product; the code also collects when it is equal, below a minimum of 665.6 allocations it does not
collect at all, and it has the handle-deficit rule besides. The model follows the code.

The documentation of `synchronize_destructors` (`src/lib.rs:171-172`) speaks of all data that is marked as garbage
when it is called. The code does not wait for what a sweep that is still going on has taken out, because that is
sent to the dropper only at the end of the sweep; `DropperProgress` states both halves.

## Left out

- Weak memory: every atomic access is sequentially consistent.
- Library internals: rayon's tasks, dynqueue, crossbeam's queues and channels, parking_lot's mutex and condition variable and arc-swap are taken as parallel tasks, a bag of work, a FIFO, a lock with a wait set and atomic cells.
- Raw pointers, layouts, vtables and `alloc`/`dealloc`: an allocation is an identity with the handles inside it and a status.
- The two tracking lists in `Steps` are the sets of items that `ChunkedList` proves them to be. `DataList` joins `Steps` with the slots for inserts and the sweep, `HandleList` for creation, removal and the handle pass; the data pass, the lockout's counter and the spinlock's tracker are not joined in this way.
- QuietCollector.Collector.HandlePass: goes through the handles in insertion order, because which slot a handle is in does not matter to any result; likewise for the data list.
- QuietCollector.Collector.MarkPass: one worker serves the queue in order here; any number of workers and any order are in `MarkTheorems`.
- QuietCollector.Collector.MoveIn: safe Rust moves values through guards; the method stands for any such move, and the matching move out is only a step of `Steps`.
- ChunkedArrays.ChunkedLinkedList.ParRetain: chunks are done one after the other, undisturbed; what a retain does in any interleaving is in `ChunkedRetain`, chunk by chunk.
- `AtomicGc`: its operations are the guarded steps of `Steps`, not methods; `compare_exchange` and `compare_and_swap` are one step there, since both succeed and fail alike.
- Trigger.GcTrigger.ShouldCollect: counts and shares are real numbers, so the rounding of `f32` is not captured; division by a zero count is the "always collect" case it is in the code.
- Trigger.CountsNeverCross: assumes of the sweep what `DataList` proves of it.
- The documentation promises that reading through the self-reference of `new_cyclic` panics before the closure is complete. `Theorems.GetMeetsUnwritten` says when a read succeeds; that the value a read finds in the window of `Theorems.CyclicWindow` is not written is all the model says about it.
- Panics: destructor panics are caught and only logged in the code; a panicking thread's unwinding is not modelled, except that the lockout's assertions are shown not to fire.
- Which of the four deallocation actions an allocation has is a matter of `QuietCollector`; in `Steps` the dropper takes any of the handles inside off the list, and at least the reported ones.
- `Drop` glue and finalizers are the sets of handles they invalidate; arbitrary user code in them is covered by the reads and invalidations of the dropper's steps.
- The notification of the collecting background thread: a collection may begin at any time.
- Garbage that appears after a collection has begun: `Completeness` speaks of what is garbage at its beginning; the rest is for the next one.
- Fairness and progress of spin loops and waiting threads, beyond no lost wake-up, the end of marking, that some operation of the lockout can go on, and the dropper's answers.
- Wrappers, `r.rs`, markers, plumbing, implementations for standard types, derive macros, `DerefGc`, downcasts, comparisons and formatting: they add only thin layers over the modelled operations.
