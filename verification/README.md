# Verification of the MPMC logger

A Dafny model of an asynchronous logger and machine-checked proofs about it. Threads push 128-byte
entries into a lock-free multicast ring; a drain thread pops them, formats them and appends the bytes to
memory-mapped, rotated files; a reader decodes the files offline. The proofs follow an entry all the way:
in binary mode, whatever the interleaving of pushes, pops, scans and registrations, what is read back from
the files is what was pushed, in claim order (`EndToEnd.LogRun`, and `EndToEnd.PushedEntryInFiles` for one push from its call on).

Verify everything with `dafny verify dfyconfig.toml` (Dafny 4.11).

## How the model is built

**The queue, as a step system** (`QueueModel.dfy`). The state holds the shared variables of `MPMCQueue`
(`head`, `min_tail`, `num_consumers`, 32 consumers, SIZE slots), a program counter with local variables
for each of an unbounded number of threads, and one for each consumer's popping thread. A step is one
access to one shared variable, or to one byte of one slot: payloads are copied a byte at a time, in any order, so
a torn read can be expressed. `compare_exchange_weak` may fail spuriously. A scan is one load per step,
over four accumulators, and any number of threads may run `recompute_and_store_min_tail`. Positions are
64-bit words; additions wrap (`RingIndex.Add64`). The state also carries history that no step reads: the
payloads in claim order, the published positions, the owner of each claimed position, who is registering, and where each consumer joined.

**The regime.** Registration begins only while no push and no scan is under way, and none begins until it is over;
a consumer unregisters between its own pops; one thread pops for a consumer id. The repository
keeps to this: `src/logger.cpp:26-29` registers before a producer can reach the queue,
`bench/bench_contention.cpp:92-95` registers before it starts threads, `src/logger.cpp:62-75` unregisters
after the drain thread has been joined. The code itself does not enforce it, and
`QueueOutsideRegime` shows what happens without it. Theorems also assume fewer than 2^64 - SIZE - 1 pushes (`QueueCore.Bounded`).

**Two invariants.** `QueueCore.Core` is safety: who owns which slot, what min_tail and every copy of it may be, what has been
copied. It needs much less than the regime: every step keeps it except the activation of a consumer, which keeps it exactly when
`QueueCore.JoinOk` holds of the position loaded earlier. The theorems of `QueueSafety` hold in every state that can be reached with such
joins, at any time and beside anything else (`QueueRuns.IsSafeRun`), and so do the refinement of the ticket log, what consumers
receive, the order of claims and the progress of a push. `QueueInvariant.Inv` adds what the regime gives: a scan's
result is tied to the state in which it began, and a consumer joins at head. The genuine failure of a push
and what is said of a shutdown are about runs in the regime (`QueueRuns.IsRun`).

**Two specifications.** `TicketLog` is what the queue is for: an append-only log, the readable positions, and a
cursor per consumer. `QueueRefinement` and `QueueRuns` show that every interleaving is a history of it.
`MpmcQueue.Queue` is the class itself, with arrays, the CAS retry loop and the unrolled
scan loop, used by one thread at a time; its contract says that each call leaves the state that the same call
running alone leaves in the step system (`QueueSolo`), and so keeps the same invariant. `QueueAlone` shows that every
execution of a call that runs alone leaves that state. `QueueCalls` says, for every run, what each call has done by the time it
returns, whatever ran beside it; `QueueProgress` counts the steps it takes.

**The sink.** `SinkModel` is a function from sink and data to sink, over a map from generations to bytes (0 is the base path, i is
the path with `.i`; `Decimal.NamesDistinct` justifies it). A map attempt answers as the system likes, but succeeds only at
a page-aligned offset (POSIX.1-2017, mmap(), EINVAL) and after extending the file with zeros. `MMapSink.MMapSink` is the class, proved against it.
History variables record what each file held when opened and what has been written to it since.

**The drain loop.** `DrainLoop.Logger` has the nested loops of `drain_loop`. The queue appears as the ticket log's readable
positions and this consumer's cursor; before each pop and each look at the stop token, a schedule of
arbitrary length lets the other threads push, publish and request the stop. `Shutdown` turns every run of the step
system into such a schedule, and shows that the pops of the run do what the drain loop's pops do.

## Where code and documentation disagree

The model follows the code.

- `README.md:10` says producers claim slots with `fetch_add`; `push` is a compare-and-swap retry loop (`include/mpmc_logger/mpmc_queue.hpp:183-208`).
- `README.md:16` and `include/mpmc_logger/mmap_sink.hpp:4-6` describe two mapped regions; there is one (`include/mpmc_logger/mmap_sink.hpp:76`).
- `README.md:19-20` and `progress.txt:17` describe division-free printing; `include/mpmc_logger/formatter.hpp:66-69` uses `%` and `/`.
- `include/mpmc_logger/mpmc_queue.hpp:112` says INVALID_POS marks a writable slot; a slot that is reused keeps its old sequence until the next publication. Safety rests on `min_tail` (`QueueSafety.NoOverrun`, `QueueSafety.ReaderUndisturbed`).

## What does not hold, and exactly when it does

- Slot ownership is lost if a consumer registers during a push (`QueueOutsideRegime.LateJoinerBreaksOwnership`), and a consumer is lost if SIZE + 1 pushes pass between its load of head and its activation, although nobody is mid-publish then (`QueueOutsideRegime.StaleJoinerIsLost`): a run for every SIZE, in which the registration, or the pushes during it, are the only steps outside the regime. The exact condition, at the activation, is `QueueCore.JoinSafeExactly`: everything below the loaded position is published, head is within SIZE of it, and neither min_tail nor any copy of it, nor the result of a scan that has already passed the new id, exceeds it. What a caller can check is `QueueOutsideRegime.QuietWindowIsSafe`: no producer between claim and publication and no scan under way at the load, and then, until the activation, no claim that succeeds, no scan that begins, and no other consumer that becomes active at an unsafe position. The scan matters: one that has passed the id does not see the new consumer (`QueueOutsideRegime.AloneJoinSafeExactly`).
- A push that returns false was exactly full at its scan's start, unless no consumer is active any more and the scan's result is 0; then only head >= SIZE is known (`QueueRuns.FailedPushIsGenuine`). Without any consumer pushes do fail after SIZE claims although nobody is behind: `QueueAlone.FullForNobody`; for the class, `MpmcQueue.Queue.PushVerdict`.
- A remap at a file offset that is not page-aligned is refused, and then the sink accepts nothing ever again (`SinkRuns.UnalignedRemapKills`, `SinkRuns.DeadForever`). `SinkRuns.WriteAcceptsExactly` is the exact condition. In text mode a line is kept exactly when it fits its region, or makes the file rotate (the new file maps at 0), or the lines before it fill the region to the byte (`TextFill.LineKeptExactly`); a line that overflows its region in a file that it does not rotate is lost otherwise, and all later lines with it. `TextFill.TextKeptExactly` and `TextFill.TextLostExactly` say so of whole runs, and `TextFill.TextKeptByLengths` and `EndToEnd.TextLinesKept` by the lengths of the lines alone. Over a file that starts empty, with a system that does not fail, nothing is ever lost if `max_file_size_` is at most `region_size_` (`TextFill.OneRegionFilesLoseNothing`), nor in binary mode with aligned regions (`BinaryFill.ExactFill`).
- A push in flight at the stop may be missed: the drain loop ends at the first position that was not readable at its last pop, and is complete exactly when all were (`DrainLoop.Logger.CompleteExactly`). If no push is in flight at the stop and none begins later, it is complete (`DrainLoop.Logger.DrainLoop`).
- The date cache starts at second 0 with an unset prefix: `DateCache.CacheAgreesExactly` is the exact condition, `DateCache.WrongAtEpoch` the inputs on which it fails.

## Model

| member | source | states |
|---|---|---|
| `RingIndex.AcceptedExactlyPowersOfTwo` | include/mpmc_logger/mpmc_queue.hpp:100-103 | the compile-time test on SIZE accepts exactly the powers of two from 16 up |
| `RingIndex.IndexIsMod` | include/mpmc_logger/mpmc_queue.hpp:107 | masking with SIZE - 1 is the remainder modulo SIZE, for every accepted SIZE |
| `RingIndex.RingDistinct` | include/mpmc_logger/mpmc_queue.hpp:210 | SIZE consecutive positions use distinct slots and position p + SIZE reuses the slot of p |
| `TailScan.ScalarMinMeaning` | mpmc_queue.hpp:248-269 | the scalar scan yields the least active tail, attained by an active consumer, and 0 when none is active |
| `TailScan.LanesCombine` | include/mpmc_logger/mpmc_queue.hpp:271-295 | the minimum of the four accumulators is the scalar loop's minimum, for any consumers |
| `QueueCore.StepKeepsCore` | include/mpmc_logger/mpmc_queue.hpp:162-299 | every step but the activation of a consumer keeps safety, whatever registers and scans beside it: ownership of claimed positions, slot contents, tails, partial copies, every copy of min_tail |
| `QueueCore.JoinSafeExactly` | include/mpmc_logger/mpmc_queue.hpp:168-170 | the activation of a consumer keeps safety if and only if the head it loaded earlier is still safe: published below, head within SIZE, min_tail and every pending copy or scan result at most that |
| `QueueCore.ScanSafe` | include/mpmc_logger/mpmc_queue.hpp:271-295 | the result of a finished non-atomic scan has everything below it published and is at most every active tail, even if consumers joined meanwhile |
| `QueueCore.SequenceTells` | include/mpmc_logger/mpmc_queue.hpp:230-236 | the sequence in an active consumer's slot equals its tail exactly when that position is published |
| `QueueCore.ClaimOwnsSlot` | include/mpmc_logger/mpmc_queue.hpp:202-219 | a claimed unpublished position shares its slot with none of the last SIZE claimed positions |
| `QueueInvariant.StepKeepsInv` | include/mpmc_logger/mpmc_queue.hpp:162-299 | every step that the regime permits also keeps the order: scans stay tied to their start and registrations to head |
| `QueueInvariant.RegimeJoinsSafely` | src/logger.cpp:26-29 | in the regime every consumer becomes active at a safe position |
| `QueueInvariant.ScanEnds` | include/mpmc_logger/mpmc_queue.hpp:271-295 | with a consumer still active, or a result past 0, a scan's result is at least the least active tail when it began |
| `TicketLog.StreamIsLog` | include/mpmc_logger/mpmc_queue.hpp:226-247 | in every history of the log, with joins at any readable position, what a consumer received is the log from its join to its cursor: nothing lost, duplicated, reordered or torn |
| `QueueRefinement.StepRefines` | include/mpmc_logger/mpmc_queue.hpp:162-247 | every queue step, in the regime or with safe joins only, is a step of the ticket log or invisible to it; a push appends at its CAS, a consumer joins where it loaded head |
| `QueueRefinement.DeliveryFollows` | include/mpmc_logger/mpmc_queue.hpp:238-246 | the bytes a pop collected one by one are the log entry at its tail |
| `QueueRuns.RunIsSafe` | include/mpmc_logger/mpmc_queue.hpp:142-299 | every state of every run in the regime satisfies the full invariant |
| `QueueRuns.SafeRunIsCore` | include/mpmc_logger/mpmc_queue.hpp:142-299 | every state of every run in which consumers join at safe positions, at any time, satisfies safety |
| `QueueRuns.RegimeRunIsSafeRun` | include/mpmc_logger/mpmc_queue.hpp:162-172 | runs in the regime are among them |
| `QueueRuns.RunRefines` | include/mpmc_logger/mpmc_queue.hpp:142-247 | every interleaving in which consumers join at safe positions is a history of the ticket log |
| `QueueRuns.RegimeJoinsAtEnd` | include/mpmc_logger/mpmc_queue.hpp:168-170 | in the regime consumers join at the end of a log that is readable throughout |
| `QueueRuns.ReceivedIsLog` | include/mpmc_logger/mpmc_queue.hpp:226-247 | over any run an active consumer has received exactly the claimed payloads from its join to its tail, in order |
| `QueueRuns.ClaimTakesHead` | include/mpmc_logger/mpmc_queue.hpp:202-208 | a successful CAS puts the payload at hand at the position head had, and it stays there for good (that this is the payload of the call: `QueueCalls.PushClaimed`) |
| `QueueRuns.ClaimsInOrder` | include/mpmc_logger/mpmc_queue.hpp:183-208 | of two successful claims, of one producer or of two, the later has the larger position |
| `QueueRuns.ClaimReceived` | include/mpmc_logger/mpmc_queue.hpp:202-247 | a consumer that joined before a claim and read past it received that payload at that place in its stream |
| `QueueRuns.RealTimeOrder` | include/mpmc_logger/mpmc_queue.hpp:184-220 | a push published before another began has the smaller position |
| `QueueRuns.ScanBegan` | include/mpmc_logger/mpmc_queue.hpp:189-195 | a scan in flight began at an identified earlier step of the same call, with the snapshot it carries |
| `QueueRuns.FullAtStart` | include/mpmc_logger/mpmc_queue.hpp:191-199 | when push returns false, the head it read was exactly SIZE past the least active tail at its scan's start, if a consumer is active or the scan's result is past 0; otherwise nobody is active, the result is 0 and that head is at least SIZE |
| `QueueRuns.GivesUpFull` | include/mpmc_logger/mpmc_queue.hpp:183-199 | a push that has claimed nothing leaves only at the end of a scan whose result says full; losing its CAS is no way out |
| `QueueRuns.FailedPushIsGenuine` | include/mpmc_logger/mpmc_queue.hpp:191-199 | for every run and every push that goes idle without having claimed, by whatever step: a state within that call was exactly full for the slowest consumer, unless no consumer is left and the scan's result is 0; then at least SIZE positions were claimed in that state |
| `QueueRuns.RetriesCount` | include/mpmc_logger/mpmc_queue.hpp:183-208 | over any stretch of a run under a strong CAS, how often a push goes back to loading head is at most the growth of the head value it works with |
| `QueueRuns.RestartsByCas` | include/mpmc_logger/mpmc_queue.hpp:183-208 | only a CAS that fails, spuriously or because head has moved, sends a push back to loading head |
| `QueueRuns.PushProgress` | include/mpmc_logger/mpmc_queue.hpp:183-208 | under a strong CAS and unmoved consumers, a push retries at most least tail + SIZE - head (at its start) times |
| `QueueCalls.ClaimsGrow` | include/mpmc_logger/mpmc_queue.hpp:202-208 | head and the log grow by exactly the successful CAS steps |
| `QueueCalls.PushMoves` | include/mpmc_logger/mpmc_queue.hpp:181-221 | beside any steps of others a push keeps the payload it was called with, copies exactly from its claim on, and returns by publishing or by finding the queue full |
| `QueueCalls.PushOutcome` | include/mpmc_logger/mpmc_queue.hpp:181-221 | over any run, for any push from its call to its return: it returns false after a scan that found the queue full and has appended nothing, or true and has appended its own argument, exactly once, in between, and that is readable |
| `QueueCalls.PushClaimed` | include/mpmc_logger/mpmc_queue.hpp:181-216 | what a push claims, at any time before it returns and after any retries, is the argument of its call, at the position head had |
| `QueueCalls.PushReceived` | include/mpmc_logger/mpmc_queue.hpp:181-247 | and a consumer that joined earlier and read past it received that argument at that place in its stream |
| `QueueCalls.PushScansWhenNeeded` | include/mpmc_logger/mpmc_queue.hpp:190-196 | over any run a push scans only if the head it loaded is full by the min_tail it loaded, and stores min_tail only if the scan yielded another value |
| `QueueCalls.RefreshOutcome` | include/mpmc_logger/mpmc_queue.hpp:297-299 | over any run in the regime, when a refresh returns min_tail is at most every active tail and, with a consumer active, at least the least active tail at its call |
| `QueueCalls.RegistrationsRefused` | include/mpmc_logger/mpmc_queue.hpp:162-166 | exactly the first 32 registrations are taken; a later one moves only the counter |
| `QueueCalls.RegistrationOutcome` | include/mpmc_logger/mpmc_queue.hpp:162-172 | over any run, a registration that returns has made the next id active with the head it loaded during the call as its tail |
| `QueueCalls.PopBegins` | include/mpmc_logger/mpmc_queue.hpp:226-228 | a pop returns at once, changing nothing, exactly when the consumer is inactive |
| `QueueCalls.PopOutcome` | include/mpmc_logger/mpmc_queue.hpp:226-247 | over any run, for any pop from its call to its return: it hands over the log entry at the tail the consumer had at the call and moves the tail past it, or it finds that position unpublished and leaves the tail |
| `QueueProgress.CallSteps` | include/mpmc_logger/mpmc_queue.hpp:181-299 | whatever the others do, a call takes at most the steps of one attempt, and of one more for each time a push goes back |
| `QueueProgress.PushIsLockFree` | include/mpmc_logger/mpmc_queue.hpp:183-208 | under a strong CAS and unmoved consumers, a push that has not claimed has taken at most (room at its call + 1) times width + 70 steps of its own |
| `QueueProgress.NeverStuck` | include/mpmc_logger/mpmc_queue.hpp:181-299 | inside a call some step of the thread's own is always possible |
| `QueueProgress.PopIsWaitFree` | include/mpmc_logger/mpmc_queue.hpp:226-247 | whatever the others do, a pop takes at most width + 4 steps |
| `QueueSafety.PublishedMeans` | include/mpmc_logger/mpmc_queue.hpp:202-219 | a position is published exactly when it is below head and no producer is between claiming and publishing it |
| `QueueSafety.ReadableIffNoPushInFlight` | include/mpmc_logger/mpmc_queue.hpp:202-219 | the whole log is readable exactly when no producer is between claim and publication |
| `QueueSafety.NothingWraps` | include/mpmc_logger/mpmc_queue.hpp:187-210 | no addition wraps and no position equals INVALID_POS in any reachable state |
| `QueueSafety.ProducersApart` | include/mpmc_logger/mpmc_queue.hpp:202-219 | no two producers are between claim and publication on the same slot |
| `QueueSafety.ReaderUndisturbed` | include/mpmc_logger/mpmc_queue.hpp:215-245 | no producer writes a slot while a consumer is between its sequence check and tail store on it |
| `QueueSafety.NoOverrun` | include/mpmc_logger/mpmc_queue.hpp:190-207 | below min_tail and every thread's copy or pending result of it all is published, with or without consumers; they are at most each active tail, which is at most head, which is at most that tail + SIZE |
| `QueueSafety.PopFailsIffUnpublished` | include/mpmc_logger/mpmc_queue.hpp:230-236 | the sequence check fails exactly when the consumer's position is unpublished at that load |
| `QueueSafety.SequenceAdvances` | include/mpmc_logger/mpmc_queue.hpp:219 | a slot's sequence changes only from INVALID_POS to its index or from q to q + SIZE |
| `QueueSafety.SequenceHome` | include/mpmc_logger/mpmc_queue.hpp:219 | a slot only ever holds positions that map to it |
| `QueueSafety.SequenceNeverAhead` | include/mpmc_logger/mpmc_queue.hpp:230-236 | the sequence in an active consumer's slot is never past its tail |
| `QueueSafety.Conservation` | include/mpmc_logger/mpmc_queue.hpp:202-220 | head is the number of published positions plus the number of producers between claim and publication |
| `QueueSafety.ScanBetween` | include/mpmc_logger/mpmc_queue.hpp:271-295 | in every run a finished scan is at most every active tail at its end and, with a consumer active or a result past 0, at least the minimum at its start |
| `QueueAlone.ScanAlways` | include/mpmc_logger/mpmc_queue.hpp:271-295 | every scan of consumers that do not change, from its first load on, has the scalar scan's value once it has passed all consumers |
| `QueueAlone.PushAlways` | include/mpmc_logger/mpmc_queue.hpp:181-221 | every push that runs alone and returns, whatever its spurious failures and copy order, has appended and published the payload or found the queue full, with min_tail refreshed if it looked full |
| `QueueAlone.RefreshAlways` | include/mpmc_logger/mpmc_queue.hpp:297-299 | every refresh that runs alone and returns has stored the scalar minimum and changed nothing else |
| `QueueAlone.RegisterAlways` | include/mpmc_logger/mpmc_queue.hpp:162-172 | every registration that runs alone and returns has activated the next id at head; from the 33rd on only the counter moves |
| `QueueAlone.PopAlways` | include/mpmc_logger/mpmc_queue.hpp:226-247 | every pop that runs alone and returns has handed over the slot's payload and advanced, or changed nothing |
| `QueueAlone.FullForNobody` | include/mpmc_logger/mpmc_queue.hpp:191-199 | for every SIZE there is a run in the regime, from a new queue and without any consumer, after which a push fails |
| `QueueSolo.DrainNext` | include/mpmc_logger/mpmc_queue.hpp:226-247 | with no push in flight a pop fails exactly at the end of the log and otherwise finds the next log entry |
| `QueueAlone.DrainVerdict` | include/mpmc_logger/mpmc_queue.hpp:230-236 | with nothing between claim and publication a pop finds nothing exactly at the end of the log |
| `QueueAlone.DrainAlways` | include/mpmc_logger/mpmc_queue.hpp:226-247 | then whatever steps a consumer's thread takes, it receives exactly the log from its old tail to its new one |
| `QueueAlone.DrainToTheEnd` | include/mpmc_logger/mpmc_queue.hpp:226-247 | with nothing else moving, once a pop fails the consumer has made exactly head - tail successful pops, of everything that was left |
| `QueueSolo.DrainAlone` | include/mpmc_logger/mpmc_queue.hpp:226-247 | and there is such a sequence from every such state: head - tail pops that hand over the rest of the log in order, and then a failure |
| `QueueOutsideRegime.LateJoinerBreaksOwnership` | include/mpmc_logger/mpmc_queue.hpp:168-170 | for every SIZE there is a run whose only step outside the regime is one registration during a push, after which two producers write the same slot |
| `QueueOutsideRegime.StaleJoinerIsLost` | include/mpmc_logger/mpmc_queue.hpp:168-170 | for every SIZE there is a run, outside the regime only by pushes that begin during a registration, in which nobody is mid-publish at the load nor at the activation, and yet head is past the new tail by more than SIZE, min_tail has overtaken it and its pop fails |
| `QueueOutsideRegime.StillJoinOk` | include/mpmc_logger/mpmc_queue.hpp:168-170 | a consumer joins safely if at its activation head is the one it loaded, no producer is mid-publish and no scan is under way |
| `QueueOutsideRegime.QuietWindowIsSafe` | include/mpmc_logger/mpmc_queue.hpp:168-170 | the same from a condition at the load: then it is enough that until the activation no CAS succeeds, no scan begins, and other consumers that become active join safely |
| `QueueOutsideRegime.AloneJoinSafeExactly` | include/mpmc_logger/mpmc_queue.hpp:162-172 | an undisturbed registration keeps safety if and only if no producer is mid-publish and no scan that has passed the new id may end above head |
| `MpmcQueue.Queue.constructor` | include/mpmc_logger/mpmc_queue.hpp:142-153 | a new queue is valid, its log is empty and no consumer is active |
| `MpmcQueue.Queue.ComputeMinTail` | include/mpmc_logger/mpmc_queue.hpp:271-295 | the unrolled loop over the arrays returns the scalar scan's value |
| `MpmcQueue.Queue.RecomputeAndStoreMinTail` | include/mpmc_logger/mpmc_queue.hpp:297-299 | min_tail becomes the least active tail, nothing else changes, validity is kept |
| `MpmcQueue.Queue.RegisterConsumer` | include/mpmc_logger/mpmc_queue.hpp:162-172 | the next id becomes active at the end of the log, or, with 32 registered already, only the counter moves and the call is refused |
| `MpmcQueue.Queue.UnregisterConsumer` | include/mpmc_logger/mpmc_queue.hpp:174-176 | only that consumer's active flag is cleared, validity is kept |
| `MpmcQueue.Queue.Claim` | include/mpmc_logger/mpmc_queue.hpp:183-208 | whatever the number of spurious failures the retry loop claims exactly position head, or reports full, with min_tail refreshed only when it looked full |
| `MpmcQueue.Queue.Push` | include/mpmc_logger/mpmc_queue.hpp:181-221 | succeeds if and only if the log is less than SIZE past the slowest active consumer (or past min_tail when there is none), appends exactly the payload, moves no consumer |
| `MpmcQueue.Queue.PushVerdict` | include/mpmc_logger/mpmc_queue.hpp:190-199 | the two-stage test with a stale cache decides the same as a test against the true minimum; without active consumers it decides by min_tail |
| `MpmcQueue.Queue.Pop` | include/mpmc_logger/mpmc_queue.hpp:226-247 | succeeds if and only if the consumer is active and behind the log's end, returns the log entry at its tail and advances it alone |
| `SinkModel.Rotated` | src/mmap_sink.cpp:174-191 | after a rotation generation g + 1 holds what g held, for every generation below the limit, gaps included; the base is absent and only the oldest is gone |
| `SinkModel.RotatedShifts` | src/mmap_sink.cpp:174-191 | spelled out: new 1 is the old base, new i + 1 is old i for 1 <= i < max, gaps included, the base is absent, files past the limit stay |
| `SinkModel.ShiftStep` | src/mmap_sink.cpp:182-186 | one turn of the descending rename loop keeps what it has shifted and moves the vacancy down |
| `SinkModel.ShiftEnds` | src/mmap_sink.cpp:188-190 | the final rename of the base completes exactly the rotated map |
| `SinkModel.MapOutcome` | src/mmap_sink.cpp:123-154 | the three outcomes of an attempt to map: nothing happens, or the file is extended with zeros to exactly file offset + region size and is mapped or not |
| `SinkModel.MapKeeps` | src/mmap_sink.cpp:123-154 | extending and mapping keeps the invariant, maps exactly when the system does and the offset is aligned, and only extends the file |
| `SinkModel.RemapKeeps` | src/mmap_sink.cpp:57-73 | unmap, optional rotation and remap keep the invariant, and the new mapping is at 0 after a rotation and else at the file offset |
| `MMapSink.MMapSink.constructor` | src/mmap_sink.cpp:21-38 | opening and mapping over any existing files yields a valid sink |
| `MMapSink.MMapSink.Rotate` | src/mmap_sink.cpp:174-191 | unlink and the descending rename loop in place shift all generations up by one |
| `MMapSink.MMapSink.Append` | src/mmap_sink.cpp:50-82 | returns 0 or the data's length, leaves exactly the specified sink, keeps validity whatever the system answers |
| `SinkRuns.WriteKeeps` | src/mmap_sink.cpp:50-82 | every write keeps the invariant: each retained file is its first contents, the bytes written, then zeros |
| `SinkRuns.WriteAcceptsExactly` | src/mmap_sink.cpp:50-82 | a write is accepted if and only if the sink is mapped and the data fits or the system maps at an aligned offset; a refusal leaves the sink unmapped |
| `SinkRuns.WriteInOneMapping` | src/mmap_sink.cpp:75-79 | an accepted write lies whole, at the end, within one mapping of the base file |
| `SinkRuns.WriteNeverShrinks` | src/mmap_sink.cpp:65-71 | no write shrinks or alters another file; a rotating one leaves exactly the rotated map beside the new base |
| `SinkRuns.AcceptedIsWritten` | src/mmap_sink.cpp:50-82 | over any run of writes, the bytes of all file lives concatenated are the accepted data concatenated |
| `SinkRuns.TotalIsAccepted` | src/mmap_sink.cpp:79 | over any run of writes total_bytes_written_ grows by exactly the bytes accepted |
| `SinkRuns.RetainedStream` | src/mmap_sink.cpp:50-82 | reading the retained files oldest to newest, without first contents and padding, gives all written bytes but those of files rotated out |
| `SinkRuns.SinkStream` | src/mmap_sink.cpp:50-191 | over any run from any start and any answers of the system, the retained files hold a suffix of the accepted bytes in order, all of them while nothing has been rotated out |
| `SinkRuns.FileBounded` | src/mmap_sink.cpp:57-79 | a file opened empty never holds more than max_file_size_ + region_size_ written bytes |
| `SinkRuns.DeadForever` | src/mmap_sink.cpp:54 | once unmapped, no later write is accepted or changes anything |
| `SinkRuns.UnalignedRemapKills` | src/mmap_sink.cpp:133-146 | in every state, a write that overflows its region at an unaligned offset is refused although the system fails nowhere, and so is every later write |
| `TextFill.OverflowExactly` | src/mmap_sink.cpp:57-73 | a line of at most a page that overflows its region, in a file that is not full, is accepted if and only if the lines before it fill the region to the byte |
| `TextFill.LineKeptExactly` | src/mmap_sink.cpp:57-73 | a line, in any region of any file, is accepted if and only if it fits, or makes the file rotate, or finds the region exactly full; and the sink stays mapped exactly then |
| `TextFill.TextKeptExactly` | src/mmap_sink.cpp:50-82 | over any run of lines from any mapped sink, through regions and rotations: all are accepted if and only if each is kept in the state that those before it leave |
| `TextFill.LostFromOverflow` | src/mmap_sink.cpp:50-82 | over any run of lines, from any state: once a line that does not make the file rotate overflows a region that is not exactly full, it and all later lines are lost |
| `TextFill.TextLostExactly` | src/mmap_sink.cpp:50-82 | over any run of lines from any mapped sink: the lines before the first that is not kept are accepted, that one and all later ones are lost; a line that is kept is accepted |
| `TextFill.TextKeptByLengths` | src/mmap_sink.cpp:50-82 | the lengths of the lines alone fix the offsets and whether all are accepted |
| `TextFill.FirstRegionFate` | src/mmap_sink.cpp:50-82 | from an empty file, for the first line that the first region cannot take and that does not make the file rotate: it is kept exactly when the lines before it fill the region |
| `TextFill.OneRegionFilesLoseNothing` | src/mmap_sink.cpp:65-71 | if max_file_size_ is at most region_size_, the file starts empty and the system does not fail, every write of any run is accepted, text or not |
| `BinaryFill.FullExactly` | src/mmap_sink.cpp:57-65 | in binary mode a record that does not fit finds the region exactly full, and rotation happens exactly at max_file_size_ |
| `BinaryFill.RemapExactly` | src/mmap_sink.cpp:57-73 | every remap in binary mode is page-aligned and succeeds |
| `BinaryFill.RecordKeeps` | src/mmap_sink.cpp:50-82 | every record is accepted, and rotates exactly when the file has max_file_size_ bytes |
| `BinaryFill.ExactFill` | src/mmap_sink.cpp:57-79 | over any run of records all are accepted, every earlier file has exactly max_file_size_ bytes, and the count fixes rotations and current size |
| `BinaryFill.CurrentFileSize` | src/mmap_sink.cpp:127-140 | the current file holds whole records and at most max_file_size_ bytes, padding included |
| `Decimal.FastU32ToStr` | include/mpmc_logger/formatter.hpp:61-71 | the loop writes the decimal digits of the value right-aligned and touches nothing else |
| `Decimal.ValueOfDigits` | include/mpmc_logger/formatter.hpp:61-71 | reading the printed digits gives the number back |
| `Decimal.U32Digits` | src/formatter.cpp:38-41 | a 32-bit value has at most ten digits, so it fits the 12-byte buffer |
| `Decimal.RotatedPath` | src/mmap_sink.cpp:178-189 | a rotated path is the base path, a dot and the number in decimal without leading zeros |
| `Decimal.NamesDistinct` | src/mmap_sink.cpp:178-189 | different generations have different paths |
| `DateCache.CacheAgreesExactly` | include/mpmc_logger/timestamp.hpp:78-107 | over any run of timestamps the cached output equals fresh rendering if and only if the first second is not 0 or the unset prefix is already right |
| `DateCache.WrongAtEpoch` | include/mpmc_logger/timestamp.hpp:78-93 | for every timestamp in second 0 the cached output is wrong unless the unset prefix happens to be the epoch's date |
| `DateCache.StampReads` | include/mpmc_logger/timestamp.hpp:84-106 | a stamp reads as its date, a dot and nine digits whose value is the nanoseconds modulo 10^9; rendered afresh, the date is that of the nanoseconds divided by 10^9 |
| `DateCache.CachedDateFormatter.Format` | include/mpmc_logger/timestamp.hpp:84-107 | writes the date of the cached second, which is now ns / 10^9 and rendered exactly when it changed, then a dot, then nine digits whose value is ns modulo 10^9, in place, and touches nothing else |
| `LogEntry.DecodeEncode` | include/mpmc_logger/log_entry.hpp:38-55 | reading an entry from its 128 bytes gives the entry back |
| `LogEntry.EncodeDecode` | include/mpmc_logger/log_entry.hpp:38-55 | any 128 bytes are the bytes of a valid entry, and of no other |
| `LogEntry.Layout` | include/mpmc_logger/log_entry.hpp:38-55 | where each field is: timestamp, thread id and length little-endian from bytes 0, 8 and 14 on, level at byte 12, category at 13, payload from 16 on |
| `LogEntry.FastCopy128` | include/mpmc_logger/log_entry.hpp:79-102 | four 32-byte lanes copy all 128 bytes and nothing past them |
| `LogEntry.FormatBinary` | include/mpmc_logger/formatter.hpp:23-27 | writes the entry's bytes and returns 128, or returns 0 and leaves a too small buffer alone |
| `TextLine.LevelRead` | include/mpmc_logger/log_entry.hpp:24-31 | the level name determines levels 0 to 6 and marks all others unknown |
| `TextLine.LevelNames` | include/mpmc_logger/log_entry.hpp:24-31 | the seven level names in letters, and question marks for any other level |
| `TextLine.LineBytes` | src/formatter.cpp:6-60 | the line in full: brackets, stamp, level name, tid, digits, and all payload bytes that the length says, 112 at the most, before the newline |
| `TextLine.LineLength` | include/mpmc_logger/formatter.hpp:46-51 | a line has 48 bytes plus thread id digits plus the payload length clamped at 112, at most 170 |
| `TextLine.ParseOfLine` | src/formatter.cpp:6-60 | parsing any formatted line recovers date, nanoseconds, level, thread id and exactly the first payload_len payload bytes (all 112 if it is larger), whatever bytes they are |
| `TextLine.TextFormatter.Format` | src/formatter.cpp:6-60 | leaves exactly the specified line in the buffer with the refreshed date, the payload bytes unshortened up to 112 before the newline, or returns 0 and changes nothing below 256 bytes |
| `LogReader.RecordsOfConcat` | tools/log_reader.cpp:81 | splitting a concatenation of records gives those records |
| `LogReader.RecordsOfZeros` | tools/log_reader.cpp:81 | zero padding reads as all-zero records |
| `LogReader.RecordAt` | tools/log_reader.cpp:81 | record i is bytes 128 i to 128 i + 128 of the file |
| `LogReader.Read` | tools/log_reader.cpp:77-100 | of the records read it shows, in order and decoded, exactly those whose byte 12 is at least the minimum level and whose thread id is the wanted one if one is wanted; it reads them all unless it shows as many as the limit says, and then stops at the last one shown |
| `DrainLoop.HistoryIsMoves` | src/logger.cpp:88-160 | every history of the ticket log acts on what the drain thread shares as a sequence of moves |
| `DrainLoop.HistoryIsCalm` | src/logger.cpp:53-65 | a history in which the log is readable throughout at the stop, and nothing is appended later, is a calm schedule that ends in what the history ends in |
| `Shutdown.RunIsSchedule` | src/logger.cpp:53-65 | every run of the queue with no push in flight at the stop and none later is a calm schedule of the drain loop, and ends in the run's log |
| `Shutdown.PopAsDrained` | src/logger.cpp:97-125 | each pop that returns in a run, by whatever step, succeeds exactly when the drain loop's pop does in that world, with the same payload and cursor |
| `Shutdown.DrainedInRun` | include/mpmc_logger/mpmc_queue.hpp:226-247 | in every run that stops calmly, beside refreshes, registrations and other consumers: a consumer whose pop returns after the stop without moving it has received the whole log from where it joined |
| `DrainLoop.Logger.Handle` | src/logger.cpp:101-116 | counts one entry, formats it once and offers it after all earlier ones |
| `DrainLoop.Logger.DrainBatch` | src/logger.cpp:94-117 | drains in order at most a batch, for any batch size including 0, stops short of it only at a position that is not readable, and says whether it drained anything |
| `DrainLoop.Logger.DrainRest` | src/logger.cpp:125-139 | once stopped, the final drain terminates, whatever the others still push, and ends at a position that is not readable |
| `DrainLoop.Logger.DrainAll` | src/logger.cpp:93-159 | the loop terminates once the stop is requested, at a position that is not readable |
| `DrainLoop.Logger.DrainLoop` | src/logger.cpp:88-160 | for any schedule that requests the stop: tail ends at the first position not readable at the last pop, each entry before it was formatted once in order and offered, the counter grew by their number; shutdown completeness: if pushes end before the stop, tail ends at head |
| `DrainLoop.Logger.CompleteExactly` | src/logger.cpp:123-140 | so the drain is complete if and only if all was readable at the last pop |
| `EndToEnd.FilesAreWhole` | src/mmap_sink.cpp:127-140 | in binary mode no retained file ends in a partial record, whether or not files were rotated out |
| `EndToEnd.BytesAreStream` | src/mmap_sink.cpp:123-154 | the retained files' bytes are the stream followed by the current file's zeros only |
| `EndToEnd.BinaryRoundTrip` | tools/log_reader.cpp:81 | decoding the retained files oldest to newest yields exactly the written records, but for the (rotations - max_rotated_) * max_file_size_ / 128 of the files rotated out, followed by all-zero ones |
| `EndToEnd.DrainedEntriesRecovered` | src/logger.cpp:96-116 | the entries that the drain loop accounts for are decoded back from the files, field by field |
| `EndToEnd.PushedEntriesRecovered` | src/logger.cpp:96-116 | for every run that stops calmly and every schedule of it: from the drain loop's own postcondition, the files hold every claimed payload once, in claim order, but for those rotated out, then only zeros |
| `EndToEnd.PushedEntryInFiles` | src/logger.cpp:96-116 | one push, over any run: if it returned true, the entry it was called with is decoded from the files that hold the run's log, at the position it claimed during the call, unless that was rotated out |
| `EndToEnd.LogRun` | src/logger.cpp:14-79 | the sink, the formatter and the drain loop run beside any such run: all claimed payloads are drained, rendered in claim order and offered; in binary mode the files hold exactly them, but for those rotated out |
| `EndToEnd.TextLinesKept` | src/logger.cpp:109-116 | the drained lines, in a text sink that starts empty, are all accepted if and only if their lengths never lose the place; always if max_file_size_ is at most region_size_ |
| `EndToEnd.TextLinesLost` | src/logger.cpp:109-116 | at any line, through regions and rotations: while the lengths keep the place the lines are accepted, and from the first at which they lose it on all are lost |
| `EndToEnd.TextRendered` | src/logger.cpp:109-116 | in text mode each line drained is the uncached rendering of its entry and parses back to it, once the first second is not 0 |

## Left out

- Weak memory: steps are sequentially consistent. Acquire and release orders are taken as what justifies that.
- AVX copies, prefetching, alignment, padding, huge pages and backoff timing: performance only. A copy is a sequence of byte accesses in any order.
- `num_consumers` is unbounded: its 32-bit wrap after 2^32 registrations is not modelled.
- MpmcQueue.Queue.Push: one thread at a time, and head + SIZE + 2 < 2^64; interleavings are the step system's.
- MpmcQueue.Queue.Pop: the payload slot is assigned at once; byte-wise copies are the step system's.
- QueueRuns.PushProgress: spurious failures are not counted, as nothing bounds them.
- QueueProgress.PushIsLockFree: likewise; `QueueProgress.CallSteps` counts them as attempts.
- `ShmQueueManager`, `msync`, `madvise`, `munmap` results, `ensure_directory`, and a failing `fstat`: foreign calls without effect on the modelled state.
- MMapSink.MMapSink.constructor: `open` failing, which throws, is not modelled.
- MMapSink.MMapSink.Rotate: needs max_rotated_ >= 1 (with 0 the loop index underflows at src/mmap_sink.cpp:182), and renames of existing files succeed.
- MMapSink.MMapSink.Append: needs data no longer than region_size_, which the drain loop guarantees for regions of 256 bytes or more; `size_t` and `off_t` overflow are not modelled.
- EndToEnd.LogRun: speaks of runs that stop calmly; what a push in flight at the stop changes is said of the drain loop alone.
- TextFill.TextKeptExactly: needs regions of whole pages, lines of at most a page and a system that does not fail; `SinkRuns.WriteAcceptsExactly` has no such conditions.
- SinkRuns.FileBounded: speaks of files opened empty; a file that existed before may already be larger.
- `localtime_r` and `strftime` are one function from seconds to 19 bytes. Fields of `LogEntry` are little-endian.
- DateCache.CachedDateFormatter.Format: seconds are naturals; `time_t` truncation is not modelled.
- LogReader.Read: yields the entries it shows; printing them is `TextLine.TextFormatter.Format`. Command-line parsing is left out.
- DrainLoop.Logger.DrainLoop: termination rests on the stop being requested and the other threads making finitely many moves in all. `Logger::init` and `Logger::shutdown` appear only through that order.
- DrainLoop.Logger.DrainAll: the turns of the loop are split over helper methods; the queue is the ticket log and not an object.
- `entries_pushed_` and `entries_dropped_`, which the code never updates; the MPMC_LOG macro, TSC calibration, thread-id caching, benchmarks, `log_stats`, and the other queue variants in the repository.
