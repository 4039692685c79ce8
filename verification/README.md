# Verification models for LLFIO

This project models five pieces of the repository that carry a protocol or an invariant of their own, and proves
what they promise. Each is a handful of modules.

**The file lock by atomic append** (`LockLog`, `LockScan`, `LockScanMeaning`, `LockProtocol`, `LockInvariant`,
`LockSteps`, `LockReading`, `LockTheorems`, `LockScanRuns`, `LockData`, `LockHoles`, `LockBacklog`, `LockTiming`,
`LockLateHolder`). Any number of writers share a lock file of
16-byte messages that can only be appended to and hole-punched. A writer appends an interest, whose offset is its
ticket, scans the file backwards for live earlier tickets, and waits, claims or releases the lock by appending
further messages. `LockScan` keeps the real scan with its two loops and early exits as methods; `LockScanMeaning`
says what it decides; `LockProtocol` is the state machine, one step for each file operation; the rest are its
invariant and what follows from it for every run. The model is the timed one: messages carry timestamps, a scan breaks
off at the first message older than 20 seconds or punched, and waiters renominate every ten seconds. The untimed
model, in which nothing goes stale, is shown to be a special case in `LockHoles`.

The lock depends on the following, and each is a named guard of the state machine.
- Append, stat and read are single steps, so a writer's first scan sees its own interest. An interest is unique in
  its writer's number. Reading the clock and appending the message stamped with it are one step, so timestamps never
  decrease along the file.
- `LockProtocol.Covered`, the backlog bound, at each query of the size of the lock file: if any earlier ticket is
  live, the whole windows counted back from the end reach some message of one of them, be it the interest, a nomination
  or a claim of the lock; on a writer's first scan, a message before its own interest, which they reach too; and the
  first extent starts no later than the first window. For a rescan the bound is exact: as long as the live tickets stay
  live, it overlooks them if and only if the bound does not hold (`LockHoles.OverlooksExactly`). It is not always kept:
  the scan never reads the partial window at the head of the file (`LockHoles.HeadIsNeverRead`), on a file of 257
  interests a writer overlooks a live earlier ticket (`LockHoles.TicketMissed`), and there is a run that keeps to
  everything but the bound and ends with two writers between havelock and unlock (`LockBacklog.BoundIsNeeded`).
- `LockProtocol.Punctual`, the timing discipline: no waiter's or holder's newest message is more than 20 seconds old.
  It follows if every waiter decides anew within ten seconds of registering or last deciding, and every holder unlocks
  within twenty of taking the lock (`LockTiming.NobodyIsLate`): a waiter's newest message is then at most 18 seconds old. A holder
  one second later than that is too late (`LockLateHolder.OneSecondLate`).

**SpookyHash V2** (`SpookyMix`, `SpookyRotations`, `SpookyInverse`, `SpookySpec`, `SpookyHash`, `SpookyStream`, `SpookyDifference`,
`SpookyAnswers`).
The mixing functions run line by line on 64-bit words; their inverses are explicit. The incremental hash is a class
with the original's fields, two-block buffer and late initialisation. What both ways of hashing compute is given
independently as a fold over 96-byte blocks of the whole message.
The header promises that `Final` gives what hashing the concatenation in one call gives. The code does not:
`Final` writes the length of the last partial block into its last byte and `Hash128` does not. The states the two end
in are equal exactly when the message is a whole number of blocks (`SpookySpec.LongStatesAgreeExactly`), short
messages take a path of their own and agree (`SpookySpec.OneShotAgrees`), and 193 zero bytes are a message on which
the hashes themselves differ (`SpookyDifference.FinalDiffersFromHash128`). Known answers for other messages, with
different seeds, fix where every word, byte, seed and rotation goes (`SpookyAnswers`).

**The i/o operation state and its awaitable** (`IoOperation`, `IoPrograms`, `LockGuards`, `AwaitRace`, `Awaitables`,
`AwaitablePrograms`). `IoOperation` is the eleven-state tagged union with its hand-made construction, destruction and
relocation, and the notifications a multiplexer makes; `IoPrograms` is any use of one such operation. `LockGuards` is the
guard of its lock, as an object, under any program of constructions, moves, locks, unlocks and destructions. `AwaitRace`
is the race between a coroutine about to suspend and any number of threads notifying the operation, down to each access
under the spin lock. `Awaitables` is the awaitable that carries the operation inside itself, and `AwaitablePrograms` any
program over any number of them; a journal records every move and destruction of an operation, its state at the time
and whether it was under way, that is handed to `init_io_operation` and not finished.
The multiplexer is the environment: it may notify anything at any time.
The interface forbids relocating an operation under way (`include/llfio/v2.0/byte_io_multiplexer.hpp`, lines 568-571,
584-587 and 1384-1386), and lets it be initiated only later, in `flush_inited_io_operations` (lines 573-576). The code
does not keep that rule for a multiplexer that makes use of this: move and destructor go by the tag, which says initialised
until then (`AwaitablePrograms.MovedUnderWay`, `AwaitablePrograms.DestroyedUnderWay`). They move or destroy an operation
under way exactly while its tag says so (`AwaitablePrograms.Execute`), hence never with a prompt multiplexer, which
leaves no operation merely initialised when `init_io_operation` returns; the null, io_uring and IOCP ones of the
repository are prompt.
Three things the code does that its comments do not say: a visitor is told of a completion after the state has
changed, not before; the former state it is told then is always `unknown`, the storage having been cleared first; and a
coroutine resumed within `await_suspend` is resumed with the lock still held, so that it could not take it, while
one resumed by a notifier can (`AwaitRace.LockAtWakeup`).

**Parallel concatenation of files** (`ConcatPlan`, `ConcatRun`, `ConcatTheorems`). The loops that schedule a read,
a write and a count for each chunk of each source; and the running of that plan, any number of operations at once and
each moving its bytes one at a time in any order, begun only when the operation it depends on has ended.

**Range lock guards** (`ExtentGuards`). The guards and the handles they lock, as objects, under any program of locks,
moves, unlocks and destructions.

## Model

| member | source | states |
|---|---|---|
| LockScan.Visit | attic/example/benchmark_atomic_log.cpp:361-402 | One message of a scan: the loop's branches, early exit included, do to the captured variables what `Examine` says, the list holding exactly as many valid claims as counted |
| LockScan.ScanBuffer | attic/example/benchmark_atomic_log.cpp:359-403 | The inner loop, whose unsigned counter wraps below zero to end it, examines the buffer newest message first and stops at the first valid claim or stale message |
| LockScan.Iterate | attic/example/benchmark_atomic_log.cpp:348-418 | The whole scan, with its unsigned offset stepping back by windows, is the function `Windows` of the successive views of the file; released entries are then erased and collecting is switched off |
| LockScanMeaning.RescanExactMeanwhile | attic/example/benchmark_atomic_log.cpp:348-418 | A rescan, of a file that others append to and punch between its reads, reports a preceding claim if and only if some smaller ticket, live when the size was queried, has a message, not below the lowest window, that nothing stale or punched follows, every message taken as its window's read found it |
| LockScanMeaning.RangeFinds | attic/example/benchmark_atomic_log.cpp:381-401 | While collecting, a claim of an unreleased smaller ticket with nothing stale above it is never missed |
| LockScanMeaning.RangeAlarm | attic/example/benchmark_atomic_log.cpp:381-401 | A claim that is reported belongs to a ticket that is live: releases met on the way are matched against the right ticket |
| LockScanMeaning.RangeNotes | attic/example/benchmark_atomic_log.cpp:384-393 | A scan not stopped early has written down every release of a smaller ticket and met nothing stale |
| LockScanMeaning.RangeStart | attic/example/benchmark_atomic_log.cpp:361-366 | The start of interest moves only to the message at which a scan broke off, and that message was stale or punched |
| LockScanMeaning.WindowsAreOneRange | attic/example/benchmark_atomic_log.cpp:350-359 | On a file that does not change, the windows read every message from the end down to the lowest window once, like one scan |
| LockReading.NothingMissed | attic/example/benchmark_atomic_log.cpp:361-366 | A window that reports nothing hid no live smaller ticket: before the staleness cut breaks off, a newer message of that ticket is met |
| LockReading.StillReached | attic/example/benchmark_atomic_log.cpp:350-366 | While any smaller ticket is live, a window that reports nothing leaves a message of an unreleased smaller ticket in reach below it, not stale: the windows cannot run out first |
| LockReading.FindsMine | attic/example/benchmark_atomic_log.cpp:375-380 | The first scan recognises the writer's own interest just at the offset where it was appended |
| LockReading.ReadStep | attic/example/benchmark_atomic_log.cpp:353-404 | Reading one window, other writers having appended since the size was queried, keeps the invariant |
| LockScanRuns.RunScansAsIterate | attic/example/benchmark_atomic_log.cpp:348-418 | In any run, the steps by which a writer queries the size and reads window after window, other writers appending and punching in between, end where one call of the scan as written ends on the files it found |
| LockSteps.RegisterStep | attic/example/benchmark_atomic_log.cpp:334-339 | Appending an interest keeps the invariant |
| LockSteps.ClaimStep | attic/example/benchmark_atomic_log.cpp:440-443 | Appending havelock keeps the invariant: no smaller ticket is live, whatever happened since the scan |
| LockSteps.WaitStep | attic/example/benchmark_atomic_log.cpp:453-472 | Going on waiting, with a nomination appended or without, and clearing the list for the rescan keeps the invariant |
| LockTiming.NominatesWhenDue | attic/example/benchmark_atomic_log.cpp:460-466 | In every run, a waiter that finds a claim preceding its own appends a nomination if and only if the clock stands at ten or more and every nomination of its ticket so far is at least ten seconds old; otherwise it appends nothing |
| LockTiming.NominationsApart | attic/example/benchmark_atomic_log.cpp:453-466 | In every run, two nominations of one ticket are at least ten seconds apart |
| LockTiming.NobodyIsLate | attic/example/benchmark_atomic_log.cpp:361-366 | If waiters decide at least every ten seconds and holders release within twenty, no newest message of a live ticket is ever stale, and a waiter's is never more than eighteen seconds old |
| LockTiming.TimelyRunIsRun | attic/example/benchmark_atomic_log.cpp:427-496 | So whatever is proved of runs held to the timing discipline, mutual exclusion with it, holds of every run whose writers are that quick |
| LockLateHolder.OneSecondLate | attic/example/benchmark_atomic_log.cpp:361-366 | Twenty seconds is the limit: in a run that keeps everything else, a holder that has not released after twenty-one finds a second writer inside |
| LockSteps.ZeroStep | attic/example/benchmark_atomic_log.cpp:444-450 | The punch keeps the invariant: nothing that still speaks for a live ticket is lost |
| LockHoles.ZeroPunches | attic/example/benchmark_atomic_log.cpp:444-450 | After the punch every message from the start of interest to the holder's ticket reads as sixteen zero bytes, and every other is unchanged |
| LockHoles.HolderHasPunched | attic/example/benchmark_atomic_log.cpp:440-451 | In every run, while a writer is past its punch and not yet out, every message from its start of interest to its ticket is punched, also where it had nothing to punch |
| LockHoles.EverythingBelowIsPunched | attic/example/benchmark_atomic_log.cpp:440-451 | Untimed, while a writer is past its punch and not yet out, every message below its ticket is punched |
| LockHoles.NothingBelowExtent | attic/example/benchmark_atomic_log.cpp:343-366 | In every run, from its query of the first extent to its release a writer reads no window that starts below that extent, and its start of interest, from which it punches, stays at or above it |
| LockSteps.LeaveStep | attic/example/benchmark_atomic_log.cpp:491-496 | Appending unlock keeps the invariant |
| LockTheorems.StepKeepsInv | attic/example/benchmark_atomic_log.cpp:334-496 | Every step of every writer, and the passing of time, keeps the invariant |
| LockTheorems.MutualExclusion | attic/example/benchmark_atomic_log.cpp:427-496 | In every run no two writers are between havelock and unlock, and the file names at most one holder |
| LockTheorems.FirstComeFirstServed | attic/example/benchmark_atomic_log.cpp:427-452 | In every run the tickets of the havelock messages increase strictly, and no smaller ticket is live while one is held |
| LockTheorems.TicketIsMine | attic/example/benchmark_atomic_log.cpp:375-380 | A writer that has to decide knows its own ticket, and decides for the lock only when no live ticket precedes it |
| LockTheorems.NextInLineStays | attic/example/benchmark_atomic_log.cpp:453-473 | A writer waiting with the smallest live ticket stays next in line whatever others do, and its own steps bring its decision nearer |
| LockTheorems.SmallestTicketAcquires | attic/example/benchmark_atomic_log.cpp:427-474 | No waiter is stuck: with the smallest live ticket, its next rescan at the latest ends in taking the lock, within a bounded number of its own steps |
| LockTheorems.ReadNeverPastEnd | attic/example/benchmark_atomic_log.cpp:353-358 | No read of a window ever starts at or past the end of the lock file |
| LockData.NoEntryLost | attic/example/benchmark_atomic_log.cpp:476-486 | In every run, whenever nobody is altering the log it holds exactly the entries of the writers served, whole and in the order of release |
| LockData.WriteStaysInFile | attic/example/benchmark_atomic_log.cpp:478-483 | The entry is written at the very end of the log as just extended |
| LockData.ServedAsUnlocked | attic/example/benchmark_atomic_log.cpp:491-496 | In every run the writers served are the owners of the unlock messages in the lock file, in that order, and no message rescinds |
| LockData.EntryText | attic/example/benchmark_atomic_log.cpp:477 | What an entry says, for a one-digit and a four-digit writer |
| LockHoles.HolesArePrefix | attic/example/benchmark_atomic_log.cpp:444-450 | Untimed, the holes are always a prefix of the lock file below every live ticket, and the timing discipline holds of itself |
| LockHoles.HolesAreInvisible | attic/example/benchmark_atomic_log.cpp:361-366 | Untimed, a rescan of the punched file gives the verdict that a rescan of everything ever appended would |
| LockHoles.HeadIsNeverRead | attic/example/benchmark_atomic_log.cpp:351-353 | The scan never reads the partial window at the head of a file of more than 256 messages |
| LockHoles.TicketMissed | attic/example/benchmark_atomic_log.cpp:351-353 | So a rescan can overlook a live smaller ticket: a file of the interests of 257 writers |
| LockHoles.OverlooksExactly | attic/example/benchmark_atomic_log.cpp:348-418 | While some smaller ticket is live and the live tickets stay live, a rescan, whatever is appended and punched meanwhile, reports nothing preceding if and only if the backlog bound does not hold when it starts |
| LockBacklog.BoundIsNeeded | attic/example/benchmark_atomic_log.cpp:351-353 | A run in which every step is one the program and the file system allow and nobody is late, but the backlog bound is not kept, ends with two writers between havelock and unlock |
| SpookyMix.Mix | attic/detail/SpookyV2.h:136-154 | The twelve lines, each with its own rotation, are twelve turns of one step |
| SpookyMix.EndPartial | attic/detail/SpookyV2.h:172-189 | The same for the ending |
| SpookyMix.End | attic/detail/SpookyV2.h:191-203 | Adds the twelve words and ends three times over |
| SpookyMix.ShortMix | attic/detail/SpookyV2.h:220-234 | The same for the short hash |
| SpookyMix.ShortEnd | attic/detail/SpookyV2.h:248-261 | The same for the ending of the short hash |
| SpookyRotations.RotBack | attic/detail/SpookyV2.h:115-121 | Every rotation in use is undone by rotating by the remaining bits |
| SpookyInverse.MixIsPermutation | attic/detail/SpookyV2.h:123-154 | Mix loses no state, for any data: an explicit inverse undoes it and is undone by it |
| SpookyInverse.EndPartialIsPermutation | attic/detail/SpookyV2.h:172-189 | EndPartial loses no state: likewise |
| SpookyInverse.ShortMixIsPermutation | attic/detail/SpookyV2.h:205-234 | ShortMix loses no state: likewise |
| SpookyInverse.ShortEndIsPermutation | attic/detail/SpookyV2.h:236-261 | ShortEnd loses no state: likewise |
| SpookySpec.FoldConcat | attic/detail/SpookyV2.cpp:157-174 | Mixing the blocks of two pieces in turn is mixing the blocks of the whole |
| SpookySpec.FoldNeverMerges | attic/detail/SpookyV2.cpp:157-174 | Two different states stay different after any equal further blocks |
| SpookySpec.LongStatesAgreeExactly | attic/detail/SpookyV2.cpp:176-183 | Hashing in one call and in fragments end in the same state if and only if the message is a whole number of blocks |
| SpookySpec.OneShotAgrees | attic/detail/SpookyV2.cpp:127-186 | The two hashes agree on every message shorter than 192 bytes and on every whole number of blocks |
| SpookyHash.AddTailBytes | attic/detail/SpookyV2.cpp:77-117 | The fall-through switch adds exactly the two little-endian words of the last 0 to 15 bytes zero padded, or the constants when there are none, and reads no byte past the end |
| SpookyHash.Short | attic/detail/SpookyV2.cpp:21-121 | The short hash consumes every byte once: it is the recursive absorption of 32, 16 and at last 0 to 15 bytes |
| SpookyHash.Hash128 | attic/detail/SpookyV2.cpp:127-186 | The one-call hash is the fold over whole blocks followed by the zero-padded last block |
| SpookyStream.SpookyHasher.Init | attic/detail/SpookyV2.cpp:191-197 | A new hasher holds the empty message, only two of its state words being set |
| SpookyStream.SpookyHasher.Update | attic/detail/SpookyV2.cpp:201-301 | Adds the fragment to the message held: the state is the fold of all of it but the bytes stashed, which are its last |
| SpookyStream.SpookyHasher.Final | attic/detail/SpookyV2.cpp:305-350 | Gives the hash of the message held and leaves the hasher holding it, though it writes into the live buffer |
| SpookyStream.Perform | attic/detail/SpookyV2.h:90-113 | However a message is cut into fragments and however often the hash is asked for on the way, every answer is the hash of the message so far |
| SpookyDifference.FinalDiffersFromHash128 | attic/detail/SpookyV2.h:106-113 | The promise that Final equals the one-call hash is false: 193 zero bytes with zero seeds hash differently |
| SpookyAnswers.LongAnswers | attic/detail/SpookyV2.cpp:127-350 | Both long hashes of the bytes 0 to 199 with seeds 1 and 2, in figures |
| SpookyAnswers.ShortAnswers | attic/detail/SpookyV2.cpp:21-121 | The short hashes of the bytes 0 to 62 with seeds 1 and 2, which go through the loop, the 16-byte step and the tail, and of nothing with zero seeds, in figures |
| IoOperation.OperationState.ClearStorage | include/llfio/v2.0/byte_io_multiplexer.hpp:857-891 | Destroys just the live member of the union, which is the one the tag names |
| IoOperation.OperationState.RelocateTo | include/llfio/v2.0/byte_io_multiplexer.hpp:909-943 | The new object is the same operation, the old one is empty, and each has destroyed what it built |
| IoOperation.OperationState.GetCompletedRead | include/llfio/v2.0/byte_io_multiplexer.hpp:895-901 | Hands over the result held and leaves the state unknown and empty |
| IoOperation.OperationState.OnReadCompleted | include/llfio/v2.0/byte_io_multiplexer.hpp:957-970 | Takes effect only on a read not yet completed, and keeps the union disciplined |
| IoOperation.OperationState.OnWriteCompleted | include/llfio/v2.0/byte_io_multiplexer.hpp:993-1006 | The same for a write |
| IoOperation.OperationState.OnBarrierCompleted | include/llfio/v2.0/byte_io_multiplexer.hpp:1018-1031 | The same for a barrier |
| IoOperation.StaysNamed | include/llfio/v2.0/byte_io_multiplexer.hpp:946-1042 | After any notifications in any order the live member is the one the tag names |
| IoOperation.VisitorStory | include/llfio/v2.0/byte_io_multiplexer.hpp:946-1042 | For any order and repetition of notifications, the visitor hears initiated at most once, completed at most once with the first result notified, finished at most once, in that order and only of the operation's kind; and exactly when |
| IoOperation.ResultIsFirstCompletion | include/llfio/v2.0/byte_io_multiplexer.hpp:946-1042 | There is a result if and only if a completion was notified; it stands in the member for the operation's kind and is the one first notified, unless the visitor moved it away then |
| IoOperation.Deliver | include/llfio/v2.0/byte_io_multiplexer.hpp:1044-1083 | Over any sequence of notifications the object goes where the pure model goes, and its visitor, if it has one, hears the same; without one no result is consumed |
| IoPrograms.Perform | include/llfio/v2.0/byte_io_multiplexer.hpp:893-1042 | Any program of notifications, fetches and moves to other storage, from any state, goes where the pure model goes: same state, same story to the visitor, same results; every storage left behind is empty |
| IoPrograms.FetchedIsNotified | include/llfio/v2.0/byte_io_multiplexer.hpp:893-908 | For every kind, any notifications followed by the fetch hand over just the result of the first completion, or nothing if there was none |
| IoPrograms.FetchAfter | include/llfio/v2.0/byte_io_multiplexer.hpp:893-1042 | The same of the object |
| IoPrograms.Live | include/llfio/v2.0/byte_io_multiplexer.hpp:854-943 | Union discipline: when such a program ends in destruction, every payload ever built, in any storage, has been destroyed exactly once |
| AwaitRace.StepKeepsInv | include/llfio/v2.0/byte_io_multiplexer.hpp:1265-1330 | Every access of every thread keeps the invariant of the race |
| AwaitRace.BegunOnce | include/llfio/v2.0/byte_io_handle.hpp:542-552 | In every interleaving await_ready asks for the state once; if it is initialised init_io_operation is called, once, and has returned before the coroutine is suspended or told it is ready; in any other state it is not called; if it is finished the answer is ready |
| LockGuards.LockGuard.Move | include/llfio/v2.0/byte_io_multiplexer.hpp:616-621 | Takes the state away from the source and leaves the source's own flag set |
| LockGuards.LockGuard.MoveAssign | include/llfio/v2.0/byte_io_multiplexer.hpp:622-627 | Unlocks what the target held, then takes over; from itself, that leaves it without a state |
| LockGuards.LockGuard.Unlock | include/llfio/v2.0/byte_io_multiplexer.hpp:630-637 | Unlocks once; a guard moved from or already unlocked touches no lock at all |
| LockGuards.LockGuard.Lock | include/llfio/v2.0/byte_io_multiplexer.hpp:639-646 | Takes the lock once, and not again while it holds it |
| LockGuards.HandOver | include/llfio/v2.0/byte_io_multiplexer.hpp:616-627 | Moving a guard passes the lock on: it is held, and by one guard only, after the move as before it |
| LockGuards.Perform | include/llfio/v2.0/byte_io_multiplexer.hpp:599-647 | Through any program of constructions with and without locking, move constructions, move assignments, locks, unlocks and destructions on any number of states, every guard goes where the pure model goes, and a lock is held if and only if exactly one guard refers to its state and is locked; and a state destroyed while its lock is free is never touched again, whichever guards still refer to it |
| LockGuards.HeldWhereMoved | include/llfio/v2.0/byte_io_multiplexer.hpp:616-627 | Through any program a lock stays held by the guard it was last moved to, until that guard is moved to itself, unlocked, destroyed or replaced |
| LockGuards.TakesFreeLock | include/llfio/v2.0/byte_io_multiplexer.hpp:606-615 | A guard constructed to lock a free lock, or told to, then holds it |
| LockGuards.Run | include/llfio/v2.0/byte_io_multiplexer.hpp:599-647 | When after such a program all guards are destroyed, every lock is free |
| AwaitRace.LockHeldOnce | include/llfio/v2.0/byte_io_multiplexer.hpp:1106-1165 | In every interleaving of the awaiting thread and the notifiers the state's lock is free exactly when none of them is in a locked part, and never held by two |
| AwaitRace.ExactlyOneWakeup | include/llfio/v2.0/byte_io_multiplexer.hpp:1276-1327 | In every interleaving the coroutine is resumed, or told it is ready, at most once and only after the finish; and when all is settled, exactly once if the operation finished |
| AwaitRace.WakeupIsOnItsWay | include/llfio/v2.0/byte_io_multiplexer.hpp:1297-1309 | While a finished operation leaves the coroutine parked, some notifier is at most three steps from resuming it and can make the next |
| AwaitRace.NothingHoldsItUp | include/llfio/v2.0/byte_io_multiplexer.hpp:1297-1309 | No step of any other thread changes or disables that notifier's next step |
| AwaitRace.WakeupArrives | include/llfio/v2.0/byte_io_multiplexer.hpp:1297-1327 | However the threads are interleaved, once that notifier has made its remaining steps the coroutine has been resumed, by it and once |
| AwaitRace.LockAtWakeup | include/llfio/v2.0/byte_io_multiplexer.hpp:1276-1291 | The thread resuming the coroutine holds the lock if and only if it does so within await_suspend |
| AwaitRace.NothingTouchesTheDead | include/llfio/v2.0/byte_io_multiplexer.hpp:1297-1327 | Given a multiplexer that may notify from many threads at once but begins no notification together with a finished one, or after the one that finishes the operation: once the woken coroutine has destroyed the awaitable nothing touches it again, the notifier's own lock guard included |
| AwaitRace.DestroySafeExactly | include/llfio/v2.0/byte_io_multiplexer.hpp:1297-1327 | Given any multiplexer: the woken coroutine may destroy the awaitable without any thread ever touching it again if and only if every notifier is idle then, or has nothing left to do but give up a guard already unlocked |
| AwaitRace.LateNotification | include/llfio/v2.0/byte_io_multiplexer.hpp:1265-1327 | A run in which one thread completes and finishes a read, resuming the coroutine, which destroys the awaitable, while another's initiated notification waits for the lock: it then takes the lock of what is gone |
| Awaitables.UntilFinished | include/llfio/v2.0/byte_io_multiplexer.hpp:946-1042 | Whatever is notified, in any order, an operation handed over stays under way exactly until its state is finished |
| Awaitables.PromptInitiates | include/llfio/v2.0/detail/impl/posix/test/io_uring_multiplexer.ipp:1036-1070 | A multiplexer that initiates what its own notifications leave initialised never returns from init_io_operation with the operation merely initialised |
| Awaitables.Awaitable.MoveFrom | include/llfio/v2.0/byte_io_multiplexer.hpp:1233-1251 | The program aborts, before anything is touched, exactly if the tag says initiated, completed or unknown; otherwise the operation lives on unchanged in the new storage, under way or not as it was |
| Awaitables.Awaitable.AwaitReady | include/llfio/v2.0/byte_io_handle.hpp:542-552 | Starts the operation whenever its tag still says initialised, else changes nothing, and says ready exactly when it has finished |
| Awaitables.Awaitable.Destroy | include/llfio/v2.0/byte_io_handle.hpp:553-579 | Does nothing to an awaitable holding nothing; blocks while the tag says initiated or completed and destroys that operation only once finished; destroys any other at once; blocks for ever only if the polls never finish it |
| AwaitablePrograms.AssignOne | include/llfio/v2.0/byte_io_multiplexer.hpp:1253-1262 | Move assignment destroys what the target held, waiting if it must, then moves; from itself it changes nothing; something under way is moved or destroyed exactly if the tag of either operation said initialised |
| AwaitablePrograms.Execute | include/llfio/v2.0/byte_io_multiplexer.hpp:568-587 | Any command of a program does to every awaitable what the pure model says, moving the operation from where to where it was asked; and it relocates or destroys an operation handed over and not finished if and only if it is asked to and the tag still says initialised |
| AwaitablePrograms.MovedUnderWay | include/llfio/v2.0/byte_io_multiplexer.hpp:1384-1386 | The rule that nothing be relocated after init_io_operation returns is not kept: with its read queued and its coroutine suspended, moving the awaitable relocates the operation |
| AwaitablePrograms.DestroyedUnderWay | include/llfio/v2.0/byte_io_handle.hpp:553-579 | And destroying it destroys the operation at once, the notifications that would finish it still to come |
| AwaitablePrograms.Run | include/llfio/v2.0/byte_io_multiplexer.hpp:1233-1262 | Storage pinning: through any program of constructions, moves, awaits, notifications, fetches and destructions of any number of awaitables, no operation is relocated or destroyed from its initiation to its finish, nor, with a prompt multiplexer, from being handed over to its finish; none is destroyed twice, those gone have had every payload destroyed once, and unless the program aborts or waits for ever all are gone at its end |
| ConcatPlan.Layout | attic/example/filecopy_example.cpp:50-63 | Every source's place in the output is the sum of the sizes before it |
| ConcatPlan.Schedule | attic/example/filecopy_example.cpp:69-100 | Plans exactly the reads, writes and counts needed, each after the right other, and keeps for every source the end of its chain |
| ConcatTheorems.ChunksTile | attic/example/filecopy_example.cpp:80-83 | Every byte of every source is in one chunk and no other |
| ConcatRun.RegionsApart | attic/example/filecopy_example.cpp:50-63 | No place in the output belongs to two sources |
| ConcatRun.StepKeepsInv | attic/example/filecopy_example.cpp:85-97 | Every beginning, ending and byte moved, in any order, keeps the invariant |
| ConcatTheorems.OutputIsConcatenation | attic/example/filecopy_example.cpp:27-104 | In every order the dependencies allow, once all the sources' chains have ended the output is the sources one after another and the bytes counted are its length, whatever the buffers and the output held before |
| ConcatTheorems.BufferNotReusedEarly | attic/example/filecopy_example.cpp:85-97 | While an operation runs on a source no other of that source does, and those done are exactly its predecessors: no buffer is refilled before it was written and counted |
| ConcatTheorems.AlwaysInBounds | attic/example/filecopy_example.cpp:80-90 | No operation leaves its buffer, its source or the output |
| ConcatTheorems.NeverStuck | attic/example/filecopy_example.cpp:85-103 | Until every chain has ended, something can begin, end or move another byte |
| ExtentGuards.Guard.Move | include/llfio/v2.0/lockable_byte_io_handle.hpp:171-178 | Moving hands over what was owned and leaves the source owning nothing |
| ExtentGuards.Guard.MoveAssign | include/llfio/v2.0/lockable_byte_io_handle.hpp:180-193 | Unlocks what the target owned before taking over; assigning to itself changes nothing |
| ExtentGuards.Guard.Unlock | include/llfio/v2.0/lockable_byte_io_handle.hpp:212-219 | Unlocks the range owned once and leaves nothing owned |
| ExtentGuards.OwnedUpdate | include/llfio/v2.0/lockable_byte_io_handle.hpp:180-193 | Replacing one guard changes what all together own on a handle by just what it owned and owns |
| ExtentGuards.MoveNewGuard | include/llfio/v2.0/lockable_byte_io_handle.hpp:171-178 | A guard made by moving from another takes over what that owned, what it replaces is unlocked, and conservation holds |
| ExtentGuards.Perform | include/llfio/v2.0/lockable_byte_io_handle.hpp:148-229 | Through any program of locks, move constructions, move assignments, unlocks and destructions, every guard goes where the pure model goes, and the ranges locked on each handle are the ranges owned by the guards, counted with repetition |
| ExtentGuards.OwnedWhereMoved | include/llfio/v2.0/lockable_byte_io_handle.hpp:171-193 | Through any program a range stays owned, unchanged, by the guard it was last moved to, until that guard is unlocked, destroyed or given another |
| ExtentGuards.GrantedIsOwned | include/llfio/v2.0/lockable_byte_io_handle.hpp:148-170 | A lock just granted is owned as it was asked for |
| ExtentGuards.Run | include/llfio/v2.0/lockable_byte_io_handle.hpp:148-229 | When after such a program all guards are destroyed no range is locked, so each lock granted was undone exactly once |

## Left out

- OneShotAgrees: one direction only for the two words reported, because two different final states may report the
  same two of their twelve words; for the whole states `SpookySpec.LongStatesAgreeExactly` gives both directions.
- NothingTouchesTheDead: like `DestroySafeExactly`, says nothing of a coroutine resumed within await_suspend, which runs while the lock is held;
  what a coroutine does after it is resumed is not modelled beyond destroying the awaitable.
- The lock outside the backlog bound or the timing discipline; a writer whose own append its first scan does not see
  (it would retry with collecting switched off, and take whatever it finds for no predecessor).
- Clock drift between machines, timestamps of 32 bits wrapping round, and a clock read apart from the append stamped
  with it.
- `rescind` as a step of a writer: no writer issues it. The scan accepts it.
- The variable `lockid` is carried by the scan but nothing depends on it; the list of preceding claims holds at most
  one valid entry, so sorting it is left out.
- The other three benchmarks in `attic/example/benchmark_atomic_log.cpp`, threads, printing and rates.
- SpookyHash: the copying path for unaligned messages is the aligned path; `m_length` does not wrap; `Hash32`,
  `Hash64` and statistical quality.
- `relocate_to` on the synchronised class, which is inherited and rebuilds an unsynchronised object.
- Moving an awaitable that holds no operation, which the original dereferences all the same.
- Real multiplexers: an environment that notifies at will; `init_io_operation` answers with a state it saw. In
  `AwaitablePrograms` the notifications one operation gets while another's destructor waits come before or after it.
- A guard asked for the lock of a state that is gone, which no correct program does: that command is passed over, as is
  one that would have a thread wait for a lock.
- Errors from reads, writes and waits in the concatenation; sources that change size while copied; a chunk size of
  zero, with which the original's loop never ends; the buffers kept across calls.
- `extent_guard::release` and `set_handle` called from outside, which give ownership away by design; whether
  the operating system grants a lock is an input.
- Operating system calls, dynamic thread pools, path handling, `kvstore`, deadlines and logging.
