# rusty_tokio, verified in Dafny

A model of the hand-written coordination and byte-stream code of `rusty_tokio`, an asynchronous
runtime, with machine-checked proofs of what its comments promise: no lost wakeups, no early frees,
no lost or reordered bytes, and books that balance, in every interleaving and every history.

`dafny verify dfyconfig.toml` checks everything.

## How it is built

- **One-lock primitives** (`Mpsc`, `Broadcast`, `RwLock`, `OnceCell`, `Barrier`, `Notify`). `Core` (for
  `Notify`: `Inner`) holds exactly the fields behind the source's mutex. Each critical section is a
  function on it, and a class with the same fields has one method per critical section, proved to
  compute that function. `World` adds what the rest of the program holds (handles, guards, permits,
  logs, tasks asleep or woken), `Action` lists every step any task can take, `Enabled` says what
  ownership and borrowing allow, and `IsRun` is any finite sequence of such steps. The theorems speak
  about every state of every run.
- **Lock-free waits** (`WakerCell`, used by `Notify`, `UringOps`, `Signal`). A poll is split at each
  atomic access (check, store the waker, check again) and so is whoever ends the wait (raise the flag,
  take the waker). Every poll has a waker of its own, so waking an older poll does not count.
- **Byte streams** (`Streams`, `BufReader`, `Lines`, `BufWriter`, `Relay`). The inner reader and writer
  choose freely between Pending, an error and any amount of progress on each call, within budgets of any
  size for delays and faults, so that every delay and failure is traced to a stream. The buffering
  objects carry the bytes they were given as ghost state. Futures are objects polled any number of times.
- **`SimDriver`**, with `SimContents` (the disk as a map from paths to bytes) and `SimCrash` (what a
  crash leaves behind).
- **Scheduler queues** (`Scheduler`, `SchedulerRuns`). The lock-free deques are sequences and a steal
  moves any number of entries.

## Where the code does less than expected

- `RwLock` can leave a free lock with somebody waiting and nobody awake. `RwLock.NeverStrandedIff` gives
  the exact steps that cause it, each as a condition on the state before the step. `RwLock.StrandingRun`
  and `RwLock.StaleRun` exhibit two of them, the first with tasks that are polled only when woken.
- A send on a full channel that is polled again without having been woken queues a second waker, which
  can absorb a later wake (`MpscRuns.SpuriousPollStrandsASender`), and a woken send that is dropped takes
  its wake along (`MpscRuns.DroppedSendStrandsASender`). `MpscRuns.AlwaysServedIff` and
  `MpscRuns.AlwaysAlertIff` say exactly when waiting senders lose their progress. `reserve_many` beyond
  the capacity waits for ever (`MpscRuns.GrantableIffFits`).
- A `Notified` dropped while queued keeps its place, and one dropped after it was picked keeps its
  notification: `Notify.NotificationCountsIff` says exactly when a notification is lost, and
  `Notify.WastedCall` and `Notify.LostAfterPick` exhibit both cases.
- An operation the submission queue refuses twice never completes and is never freed
  (`UringOps.ResultCanComeIff`, `UringOps.LostForEver`, `UringOps.RefusedSubmission`).
- `Barrier` compares round numbers that wrap at 2^64 (`Barrier.PollIsRightIff`, `Barrier.WrongAnswer`).
- `SimDriver` treats durability as a length, so overwriting below it survives a crash
  (`SimCrash.FileSurvivesIff`, `SimCrash.OverwriteShowsIff`, `SimCrash.UnsyncedOverwriteSurvives`).
  Reading past the end of a file slices out of range (`SimContents.ReadShows`,
  `SimCrash.ReadBehindTheEnd`). A write of 2^31 bytes or more reports a negative number
  (`SimDriver.WriteReportsItsLengthIff`, `SimDriver.LongWriteLooksFailed`). `fallocate` and `set_len` accept closed handles
  (`SimContents.FallocateShows`, `SimContents.SetLenShows`), and `fsync` in lying mode reports success
  even for an unknown handle (`SimDriver.SyncSucceedsIff`, `SimDriver.SyncOfNothing`). The comment on
  `crash_and_reopen` says fault settings are not inherited; the code does carry the disk-full limit
  over, and the model follows the code.
- The comments on the io_uring operation state let the completion handler take the buffer; in the code
  only the poll that returns the result does (`UringOps.BufferLeavesOnceAfterCompletion`).
- A relay or a line reader with an empty buffer takes the first read for the end of the stream
  (`Relay.AnySchedule`, `Lines.PrintedLinesComeBack`).

## Model

| member | source | states |
|---|---|---|
| `Notify.Shared.constructor` | src/sync/notify.rs:64-71 | starts with no permit and nobody waiting |
| `Notify.Shared.PollLocked` | src/sync/notify.rs:186-195 | an unregistered waiter spends a banked permit or joins the end of the queue, a registered one changes nothing |
| `Notify.Shared.NotifyLocked` | src/sync/notify.rs:89-111 | hands out the oldest (or newest) waiter, and banks a permit only if there is none |
| `Notify.Shared.NotifyWaitersLocked` | src/sync/notify.rs:119-122 | takes every waiter and banks nothing |
| `Notify.StepKeepsInv` | src/sync/notify.rs:89-233 | every atomic step of polls, `enable`, notifiers and drops keeps the whole invariant |
| `Notify.NoLostWakeup` | src/sync/notify.rs:134-208 | in every interleaving a fully fired waiter is never parked behind a waker nobody invoked |
| `Notify.PermitsOnlyWhenNobodyWaits` | src/sync/notify.rs:89-195 | banked permits and queued waiters never coexist |
| `WakerCell.PollOutcome` | src/sync/notify.rs:170-208 | one poll from end to end, with the flag raised at any point or never: over exactly if it was up at any time, else parked behind a waker of its own that is still to be invoked |
| `Notify.CompletionsAreOwed` | src/sync/notify.rs:170-233 | each completion is owed to exactly one single notification or broadcast, and single notifications equal banked permits plus waiters given one |
| `Notify.PickOrder` | src/sync/notify.rs:87-111 | `notify_one` picks the earliest registration still queued, `notify_last` the latest |
| `Notify.BroadcastReachesAll` | src/sync/notify.rs:119-126 | a broadcast gives a notification to exactly the waiters queued at that moment, empties the queue and banks nothing |
| `Notify.WastedIff` | src/sync/notify.rs:89-111 | at the moment of the call: `notify_one` or `notify_last` banks nothing and reaches no live waiter if and only if the waiter at the end it picks from was already dropped |
| `Notify.DroppedNeverComplete` | src/sync/notify.rs:89-139 | a waiter dropped before completing never completes, whatever is fired at it later |
| `Notify.NotificationCountsIff` | src/sync/notify.rs:89-233 | in any state of any run, some continuation completes a waiter that was given a single notification or a broadcast if and only if it is done or was not dropped, whenever the drop happened |
| `Notify.WastedCall` | src/sync/notify.rs:89-111 | a concrete run in which a call goes to a dropped waiter while a live one stays queued |
| `Notify.LostAfterPick` | src/sync/notify.rs:89-139 | a concrete run in which the waiter is dropped after it was picked, with the same loss |
| `UringOps.OpState.constructor` | src/io/uring_fs.rs:522-526 | a new operation holds its buffer, no result and no waker |
| `UringOps.OpState.Poll` | src/io/uring_fs.rs:710-735 | an uninterrupted poll yields the recorded result with the buffer, or leaves its waker |
| `UringOps.Driver.constructor` | src/io/uring_fs.rs:367-375 | a new driver has an empty slab and nothing pending |
| `UringOps.Driver.Submit` | src/io/uring_fs.rs:519-531 | a fresh id goes into the slab and the pending queue with its buffer inside |
| `UringOps.Driver.Handle` | src/io/uring_fs.rs:458-481 | a known completion leaves the slab with result recorded, waker taken and buffer untouched; an unknown one changes nothing |
| `UringOps.Driver.HandleOneOf` | src/io/uring_fs.rs:458-481 | among all operations of a batch, one completion changes exactly the one it names |
| `UringOps.Driver.ProcessCompletions` | src/io/uring_fs.rs:452-482 | a whole batch removes exactly the completed ids, records the first result of each, leaves all other operations alone and wakes exactly the waiters of the completed ones, in order |
| `UringOps.Driver.ProcessOne` | src/io/uring_fs.rs:452-482 | one completion of a batch, with what is left to do |
| `UringOps.FirstResultIsFirst` | src/io/uring_fs.rs:462-464 | the result recorded for an operation is the first one reported, and there is one exactly if any was |
| `UringOps.WokenIff` | src/io/uring_fs.rs:464-468 | a waker is invoked exactly if it was stored for a known operation that completed |
| `UringOps.StepKeepsInv` | src/io/uring_fs.rs:425-531 | every atomic step of submitter, driver, kernel and future keeps the whole invariant |
| `UringOps.KernelBuffersAreAlive` | src/io/uring_fs.rs:486-531 | whatever is queued for or held by the kernel is in the slab with its buffer present |
| `UringOps.BufferLeavesOnceAfterCompletion` | src/io/uring_fs.rs:458-473 | a buffer leaves its operation at most once and only after the kernel completed it; it is freed only when nobody refers to it |
| `UringOps.ResultAlwaysFindsItsBuffer` | src/io/uring_fs.rs:726-735 | a poll that sees a result always finds the buffer and returns what the kernel reported |
| `UringOps.CompletionsAreKnown` | src/io/uring_fs.rs:474-481 | a completion never arrives for an id the slab does not hold |
| `UringOps.NoParkedResult` | src/io/uring_fs.rs:710-723 | once the driver has taken the waker, no future with a recorded result is asleep |
| `UringOps.LostForEver` | src/io/uring_fs.rs:486-506 | an operation refused twice by the submission queue keeps its slab entry and its buffer for ever and its future never resolves |
| `UringOps.ResultCanComeIff` | src/io/uring_fs.rs:425-531 | from any state of any run, a result can still come for an operation if and only if it was not refused twice |
| `UringOps.RefusedSubmission` | src/io/uring_fs.rs:486-531 | a concrete run that ends with such an operation |
| `Signal.ListenerState.constructor` | src/signal.rs:470-473 | a new listener has no pending signal and no waker |
| `Signal.ListenerState.Poll` | src/signal.rs:441-450 | an uninterrupted poll consumes the pending flag or leaves its waker |
| `Signal.ListenerState.Raise` | src/signal.rs:306-309 | raises the flag and hands out the stored waker |
| `Signal.ListenerState.RaiseAmong` | src/signal.rs:306-309 | among all listeners of a slot, exactly that one changes |
| `Signal.SignalSlot.Dispatch` | src/signal.rs:290-312 | every live listener is raised and its waker taken; exactly the stored wakers are invoked, in order; the list keeps exactly the live ones |
| `Signal.UpgradableIsFilter` | src/signal.rs:299-304 | the list keeps exactly the owned listeners, each as often as before and in the same order |
| `Signal.WokenIff` | src/signal.rs:305-309 | a waker is invoked exactly if it was stored by a listener still owned |
| `Signal.StepKeepsInv` | src/signal.rs:290-450 | every atomic step of dispatcher, polls, registration and drops keeps the whole invariant |
| `Signal.NoParkedSignal` | src/signal.rs:441-450 | a listener with its flag up is never asleep once the dispatcher has passed it |
| `Signal.ReceivesNeverOutnumberDispatches` | src/signal.rs:441-450 | receives, counting a pending one, never exceed the dispatches since registration |
| `Signal.EveryDispatchReachesEveryListener` | src/signal.rs:290-312 | between dispatches a live listener was raised exactly once per dispatch, and its flag is up exactly if it has not received since |
| `Signal.LookReceivesIff` | src/signal.rs:441-450 | either look of a poll receives exactly if a signal is pending and lowers the flag, and a poll that finds none ends asleep |
| `Mpsc.Channel.constructor` | src/sync/mpsc.rs:96-115 | an open empty channel with one sender |
| `Mpsc.Channel.Send` | src/sync/mpsc.rs:118-139 | delivers and takes the receiver's waker, refuses when closed, or queues the sender's waker when full |
| `Mpsc.Channel.TrySendNow` | src/sync/mpsc.rs:153-171 | the same without ever queueing |
| `Mpsc.Channel.Reserve` | src/sync/mpsc.rs:280-291 | claims all `n` slots at once or queues the sender's waker |
| `Mpsc.Channel.TryReserveNow` | src/sync/mpsc.rs:240-254 | claims one slot or none, without queueing |
| `Mpsc.Channel.Fill` | src/sync/mpsc.rs:76-85 | turns a reserved slot into a queued value and wakes the receiver |
| `Mpsc.Channel.Release` | src/sync/mpsc.rs:56-70 | returns `n` slots and wakes the `n` oldest queued senders, or all of them |
| `Mpsc.Channel.Recv` | src/sync/mpsc.rs:575-596 | takes the oldest value and wakes one sender, ends, or stores the receiver's waker |
| `Mpsc.Channel.SenderDropped` | src/sync/mpsc.rs:314-328 | only the last sender takes the receiver's waker |
| `Mpsc.Channel.UpgradeWeak` | src/sync/mpsc.rs:347-356 | succeeds exactly while a sender is alive |
| `Mpsc.Channel.ReceiverDropped` | src/sync/mpsc.rs:599-609 | closes the channel and wakes every queued sender |
| `MpscRuns.StepConserves` | src/sync/mpsc.rs:56-609 | every critical section keeps the conservation invariant |
| `MpscRuns.Conservation` | src/sync/mpsc.rs:29-609 | in every run accepted values are received ones followed by the queue, wakers leave the queue in order, the buffer is never over-committed, reserved slots equal unused permits and iterator remainders, and a sleeping unwoken receiver has an empty queue and a live sender |
| `MpscRuns.RequestsGetTheirDue` | src/sync/mpsc.rs:118-291 | in every run, once the receiver is gone every send, try_send, reserve and try_reserve is answered closed; before that it is granted if and only if accepted minus received values, held slots and the request fit the capacity together, and answered full otherwise |
| `MpscRuns.RequestsTakeEffect` | src/sync/mpsc.rs:118-291 | a granted request hands over its value or holds its slots, and any other leaves both as they are |
| `MpscRuns.ReceiveGetsItsDue` | src/sync/mpsc.rs:575-596 | in every run a receive yields the oldest accepted value not yet received; without one the end if and only if no sender handle is left, and otherwise it waits |
| `MpscRuns.LastHandleWakes` | src/sync/mpsc.rs:314-328 | dropping a handle beside others changes only their number; dropping the last wakes a sleeping receiver |
| `MpscRuns.UpgradeIff` | src/sync/mpsc.rs:305-356 | a weak handle is upgraded, and a handle cloned, exactly while a sender handle exists |
| `MpscRuns.EndIsFinal` | src/sync/mpsc.rs:575-596 | `None` is received only after everything accepted was delivered, and then for ever |
| `MpscRuns.NoWaitIsForgotten` | src/sync/mpsc.rs:56-291 | in every run, with spurious polls and dropped waits, whoever waits is in the queue or has been woken |
| `MpscRuns.StarvedExactlyAfter` | src/sync/mpsc.rs:56-139 | with single-slot requests, and every free slot having a waiting sender awake while another sleeps, a step changes that if and only if it frees more slots than it wakes senders that still wait, or ends a wait whose wake cannot be spared |
| `MpscRuns.AlwaysServedIff` | src/sync/mpsc.rs:56-139 | over every run, with spurious polls, dropped waits and barging: every free slot has a waiting sender awake, while another sleeps, if and only if no such step is taken |
| `MpscRuns.StalledExactlyAfter` | src/sync/mpsc.rs:213-291 | with requests up to the capacity, the exact steps that leave an idle channel with a sleeping sender and nobody awake |
| `MpscRuns.AlwaysAlertIff` | src/sync/mpsc.rs:213-291 | over every run the channel never stops altogether if and only if no such step is taken |
| `MpscRuns.SendersProgress` | src/sync/mpsc.rs:118-139 | in particular, with single-slot waits that are kept and polled only when woken, while a sender is queued free slots never outnumber the senders already woken, despite barging |
| `MpscRuns.NeverStalls` | src/sync/mpsc.rs:280-291 | in particular, with such waits and requests up to the capacity, an idle channel with a queued sender always has another one awake |
| `MpscRuns.GrantableIffFits` | src/sync/mpsc.rs:213-223 | a request can ever be granted if and only if it is at most the capacity |
| `MpscRuns.SpuriousPollStrandsASender` | src/sync/mpsc.rs:136-137 | a concrete run in which an unwoken re-poll leaves another sender queued beside a free slot with no waiting send awake |
| `MpscRuns.DroppedSendStrandsASender` | src/sync/mpsc.rs:118-139 | a concrete run in which a woken send is dropped and another one stays queued beside a free slot |
| `Broadcast.Channel.constructor` | src/sync/broadcast.rs:64-84 | an empty ring with one sender and one receiver |
| `Broadcast.Channel.SendValue` | src/sync/broadcast.rs:95-113 | appends, drops the oldest message of a full ring, wakes all parked receivers; refuses without receivers |
| `Broadcast.Channel.Subscribe` | src/sync/broadcast.rs:118-127 | a new receiver starts after everything already sent |
| `Broadcast.Channel.Receive` | src/sync/broadcast.rs:217-258 | reports the lag, the next message, the end, or parks |
| `Broadcast.Channel.SenderDropped` | src/sync/broadcast.rs:152-167 | the last sender wakes every parked receiver |
| `Broadcast.Channel.UpgradeWeak` | src/sync/broadcast.rs:181-190 | succeeds exactly while a sender is alive |
| `Broadcast.Channel.ReceiverDropped` | src/sync/broadcast.rs:261-270 | one receiver fewer, and nobody is woken |
| `Broadcast.StepKeepsInv` | src/sync/broadcast.rs:95-270 | every critical section keeps the refinement invariant |
| `Broadcast.RingIsEndOfLog` | src/sync/broadcast.rs:95-113 | the ring is always the last min(capacity, length) entries of an append-only log |
| `Broadcast.DeliveriesAreTheLog` | src/sync/broadcast.rs:217-258 | a receiver's messages are log entries at increasing positions, and deliveries plus reported lag equal its position minus its start |
| `Broadcast.LagSkipsOnlyOverwritten` | src/sync/broadcast.rs:219-229 | a lag is reported exactly when messages were overwritten, with their exact number, and a message read is the log entry at that position |
| `Broadcast.SendCountsReceivers` | src/sync/broadcast.rs:95-113 | a send fails exactly if no receiver is left and otherwise reports their number |
| `Broadcast.SleepersHaveReadEverything` | src/sync/broadcast.rs:231-236 | every parked waker belongs to a receiver that has read the whole log while a sender lives |
| `Broadcast.ClosedIff` | src/sync/broadcast.rs:217-258 | in every run a receiver that has read everything is told closed if and only if no sender handle is left, and finds nothing otherwise |
| `Broadcast.CaughtUpPollSleepsIff` | src/sync/broadcast.rs:217-238 | its poll puts it to sleep with its waker stored exactly while a sender handle is left |
| `Broadcast.NewHandles` | src/sync/broadcast.rs:118-190 | a new receiver starts behind everything sent so far, and a sender is added exactly while one exists |
| `RwLock.BatchShape` | src/sync/rwlock.rs:63-83 | a wake batch is the maximal leading block of readers, or exactly one writer if there is none and no reader is active |
| `RwLock.LeadingReadsIsMaximal` | src/sync/rwlock.rs:65-67 | the popped readers are a maximal leading block |
| `RwLock.Lock.constructor` | src/sync/rwlock.rs:101-110 | starts free |
| `RwLock.Lock.AnyWriterPending` | src/sync/rwlock.rs:49-51 | finds whether a writer is queued |
| `RwLock.Lock.WakeBatch` | src/sync/rwlock.rs:63-83 | the popping loop removes and returns exactly that batch, in order |
| `RwLock.Lock.PollAcquire` | src/sync/rwlock.rs:112-136 | grants the lock or queues the caller |
| `RwLock.Lock.TryAcquire` | src/sync/rwlock.rs:138-156 | readers also yield to a queued writer; failing changes nothing |
| `RwLock.Lock.DropRead` | src/sync/rwlock.rs:161-173 | only the last reader wakes a batch |
| `RwLock.Lock.DropWrite` | src/sync/rwlock.rs:179-187 | clears the writer and wakes a batch |
| `RwLock.Lock.DowngradeGuard` | src/sync/rwlock.rs:306-322 | the writer becomes the one reader and queued readers are woken |
| `RwLock.StepKeepsInv` | src/sync/rwlock.rs:112-343 | every poll, try, drop, downgrade and map keeps the guard counts, the queue order and every pending acquire queued or woken |
| `RwLock.Exclusion` | src/sync/rwlock.rs:112-343 | in every run, through polls, tries, drops, downgrades and maps, there is at most one write guard and never one beside a read guard, and the counters equal the guards |
| `RwLock.GrantedIff` | src/sync/rwlock.rs:112-156 | in every run a read lock is granted if and only if there is no write guard and no queued writer, however many read guards there are, and a write lock if and only if there is no guard; a refused poll queues last and a refused try changes nothing |
| `RwLock.ReleasesWake` | src/sync/rwlock.rs:161-322 | giving up the last guard or downgrading wakes every reader up to the first queued writer, or, on a free lock with a writer first, that writer; no other step wakes anybody |
| `RwLock.WokenAreTheRemoved` | src/sync/rwlock.rs:63-83 | the wakers handed out are, in order, the tasks of exactly the queue entries removed |
| `RwLock.QueuedWriterHoldsReadersBack` | src/sync/rwlock.rs:112-146 | while a writer is queued no new read guard appears, except by downgrading |
| `RwLock.WokenInOrder` | src/sync/rwlock.rs:63-83 | tasks are woken in exactly the order they queued |
| `RwLock.StrandedExactlyAfter` | src/sync/rwlock.rs:63-187 | a step leaves a free lock with somebody waiting and nobody who waits awake if and only if it is a reader, the only one awake if any, queueing behind a writer; the drop of the last awake acquire; or a release whose whole batch is finished or dropped acquires |
| `RwLock.NeverStrandedIff` | src/sync/rwlock.rs:63-187 | over every run, with spurious polls and dropped acquires, nobody is stranded if and only if no such step is taken |
| `RwLock.StrandingRun` | src/sync/rwlock.rs:63-123 | a concrete run with patient tasks in which a reader queues again behind a writer and both are stranded |
| `RwLock.StaleRun` | src/sync/rwlock.rs:125-187 | a concrete run in which a second poll without a wake leaves an entry that later absorbs the wake of another writer |
| `RwLock.StrandedAreQueued` | src/sync/rwlock.rs:112-136 | whoever is stranded is still in the queue |
| `RwLock.PatientRunsStrandByRequeueing` | src/sync/rwlock.rs:63-187 | if acquires are kept and polled only when woken, the reader that queues again is the only way to strand anybody |
| `OnceCell.Once.constructor` | src/sync/once_cell.rs:79-87 | starts uninitialised |
| `OnceCell.Once.NewWith` | src/sync/once_cell.rs:90-98 | starts initialised with the value |
| `OnceCell.Once.ClaimCell` | src/sync/once_cell.rs:223-233 | only the first caller of an uninitialised cell gets to initialise it |
| `OnceCell.Once.Wait` | src/sync/once_cell.rs:178-186 | checks and registers in one step |
| `OnceCell.Once.Finish` | src/sync/once_cell.rs:205-214 | writes, publishes and wakes everyone |
| `OnceCell.Once.Abandon` | src/sync/once_cell.rs:263-275 | an unfinished initialiser resets the cell and wakes everyone |
| `OnceCell.Once.SetValue` | src/sync/once_cell.rs:121-140 | stores only into an uninitialised cell and says which of the others it found |
| `OnceCell.StepKeepsInv` | src/sync/once_cell.rs:102-275 | every step of callers, initialisers and `set` keeps the whole invariant |
| `OnceCell.OneInitialiser` | src/sync/once_cell.rs:153-233 | exactly one armed initialiser exists if and only if the cell is initialising |
| `OnceCell.ClaimIff` | src/sync/once_cell.rs:223-233 | in every run a claim is answered ready exactly once something was published, busy exactly while somebody initialises, and otherwise arms the caller |
| `OnceCell.WaitIff` | src/sync/once_cell.rs:178-186 | a waiting caller is put to sleep exactly while somebody initialises |
| `OnceCell.SetIff` | src/sync/once_cell.rs:121-140 | a `set` is stored exactly if nobody initialises and nothing was published, and each refusal names its case |
| `OnceCell.OneValue` | src/sync/once_cell.rs:121-217 | at most one value is ever published and every reader sees that one |
| `OnceCell.OwnValueIsPublished` | src/sync/once_cell.rs:203-217 | what an initialiser publishes is what it wrote itself, whatever others tried in between |
| `OnceCell.SetPublishesItsValue` | src/sync/once_cell.rs:121-140 | a `set` that succeeds has published its own value, and one that does not has changed nothing |
| `OnceCell.ValueHasOrigin` | src/sync/once_cell.rs:90-217 | whatever is in the cell was given to the constructor or to `set`, or written by an initialiser |
| `OnceCell.Immutable` | src/sync/once_cell.rs:62-66 | once initialised, state and value never change again |
| `OnceCell.GetSeesThePublished` | src/sync/once_cell.rs:102-111 | in every run `get` yields nothing exactly until a value is published, never an unpublished write, and from then on always that value |
| `OnceCell.NobodyStranded` | src/sync/once_cell.rs:178-275 | sleepers and stored wakers exist only while initialising, and every sleeper's waker is stored |
| `OnceCell.WritesAreUnobserved` | src/sync/once_cell.rs:203-210 | the unlocked write happens only while its writer is the sole initialiser and nobody has read the cell |
| `Barrier.Rendezvous.constructor` | src/sync/barrier.rs:71-81 | starts in round zero |
| `Barrier.Rendezvous.WaitArrive` | src/sync/barrier.rs:97-115 | the n-th arrival leads, starts the next round and wakes everyone |
| `Barrier.Rendezvous.WaitPoll` | src/sync/barrier.rs:117-125 | resolves when the round number has moved on, else registers |
| `Barrier.ArrivalsAddUp` | src/sync/barrier.rs:96-115 | arrivals are n per completed round plus those of the current one |
| `Barrier.RoundsAreBlocks` | src/sync/barrier.rs:96-115 | each round consists of exactly n consecutive calls, whose last one is its only leader |
| `Barrier.NobodyLeavesEarly` | src/sync/barrier.rs:117-127 | no call resolves before its round's n-th arrival |
| `Barrier.PollIsRightIff` | src/sync/barrier.rs:106-121 | a poll answers correctly if and only if its round is not a positive multiple of 2^64 rounds old |
| `Barrier.WrongAnswer` | src/sync/barrier.rs:106-121 | the run of 2^65 arrivals at a barrier for two, after which the first call is told that its round is not over |
| `Barrier.SleepersAreInTheCurrentRound` | src/sync/barrier.rs:117-125 | in the first 2^64 rounds every stored waker and every sleeper belongs to the current round |
| `Streams.Source.PollRead` | src/io/async_io.rs:85-91 | any inner reader: Pending, an error, or some of the next bytes, none only at the end or into an empty buffer; delays and errors come out of budgets of any size |
| `Streams.Sink.PollWrite` | src/io/async_io.rs:93-98 | any inner writer: Pending, an error, or any prefix of the data; delays, errors and taking nothing come out of budgets of any size |
| `Streams.Sink.PollFlush` | src/io/async_io.rs:104-107 | finishes, recording all that was taken as flushed, or stalls or fails within the same budgets |
| `Streams.Sink.PollShutdown` | src/io/async_io.rs:109-109 | closes the writer exactly if it reports success, within the same budgets |
| `BufReader.Reader.constructor` | src/io/buffered.rs:41-48 | an empty buffer in front of the source |
| `BufReader.Reader.PollFillBuf` | src/io/buffered.rs:93-108 | never loses or invents a byte, shows an empty buffer only at the end of the stream or without capacity, and stalls or fails exactly when the source does |
| `BufReader.Reader.Consume` | src/io/buffered.rs:110-113 | drops exactly the consumed bytes, never more than are buffered |
| `BufReader.Reader.PollRead` | src/io/buffered.rs:69-89 | delivers the next bytes of the stream in order, through the buffer or past it, and stalls or fails exactly when the source does |
| `BufReader.Until` | src/io/async_io.rs:713-757 | the reference for a record: up to and including the first delimiter, or everything |
| `BufReader.Position` | src/io/async_io.rs:737-746 | finds the first delimiter |
| `BufReader.UntilSplits` | src/io/async_io.rs:713-757 | the first record does not depend on where the stream is cut |
| `BufReader.ReadUntil.constructor` | src/io/async_io.rs:721-722 | starts with nothing read |
| `BufReader.ReadUntil.Accept` | src/io/async_io.rs:737-746 | moves bytes from the front of the stream to the end of the vector, none lost |
| `BufReader.ReadUntil.Poll` | src/io/async_io.rs:723-755 | however the stream is chunked and stalled, a finished call appended and consumed exactly the bytes up to and including the first delimiter, or all; it stalls or fails exactly when the source does |
| `Lines.AwaitRecord` | src/io/async_io.rs:713-757 | yields exactly the first record unless the source fails; a failed call has dropped a part of that record without a delimiter and nothing else |
| `Lines.StripEnding` | src/io/buffered.rs:364-369 | removes a final line feed and then one carriage return |
| `Lines.LineReader.NextLine` | src/io/buffered.rs:358-371 | yields the next line of the stream without its ending, and the end exactly at the end, unless the source fails; an error drops only bytes of the line it interrupts |
| `Lines.LineReader.ReadAll` | src/io/buffered.rs:355-371 | yields exactly the lines of the stream unless the source fails, and then a prefix of them |
| `Lines.RoundTripIff` | src/io/buffered.rs:358-371 | lines printed with line feeds are read back unchanged if and only if none contains a line feed or ends in a carriage return |
| `Lines.TextTripIff` | src/io/buffered.rs:358-371 | any text, with either line ending and a last line without one, is read back unchanged if and only if no line contains a line feed and none before a bare line feed ends in a carriage return; just one carriage return belongs to an ending, and the last line keeps all of its own |
| `Lines.PrintedLinesComeBack` | src/io/buffered.rs:355-371 | the same through a reader of any capacity over a source of any chunking and stalls: without faults it always succeeds, giving the lines back if and only if they are clean, and nothing at all with capacity zero |
| `Lines.TextComesBack` | src/io/buffered.rs:355-371 | the same for any such text through a reader over a source of any chunking and stalls |
| `BufWriter.Writer.constructor` | src/io/buffered.rs:154-160 | an empty buffer in front of the sink |
| `BufWriter.Writer.FlushSome` | src/io/buffered.rs:181-208 | one offer to the sink loses nothing, counts what was taken, and stalls or fails exactly when the sink does |
| `BufWriter.Writer.PollFlushBuf` | src/io/buffered.rs:181-208 | drains in order through short, zero, failing and pending writes, keeping whatever was not taken; stalls or fails exactly when the sink stalls, fails or takes nothing |
| `BufWriter.Writer.PollWrite` | src/io/buffered.rs:212-228 | bytes taken by the sink followed by the buffer are always all bytes accepted, the buffer never outgrows its capacity, and a write stalls or fails exactly when the sink does |
| `BufWriter.Writer.WriteThrough` | src/io/buffered.rs:220-223 | the bypass happens only with an empty buffer and answers what the sink answers |
| `BufWriter.Writer.Append` | src/io/buffered.rs:224-227 | buffers data that fits, behind everything accepted before |
| `BufWriter.Writer.PollFlush` | src/io/buffered.rs:230-233 | a finished flush means the sink holds everything accepted and was itself flushed with all of it; an unfinished one is the doing of the sink |
| `BufWriter.Writer.PollShutdown` | src/io/buffered.rs:235-238 | the same for a shutdown, which closes the sink |
| `BufWriter.Writer.Perform` | src/io/buffered.rs:212-238 | any one call, with what it reports and whether the sink stalled or made trouble |
| `BufWriter.Writer.NextCall` | src/io/buffered.rs:212-238 | a session goes on call by call within the budgets of the sink |
| `BufWriter.AnySession` | src/io/buffered.rs:175-239 | over any sequence of calls and any sink, delivered bytes followed by buffered ones are the concatenation of what the calls reported as accepted; after a finished flush or shutdown all of it is delivered; the calls report at most the delays and the trouble the sink made, so with a willing sink every flush and shutdown completes |
| `Relay.CopyBuffer.constructor` | src/io/async_io.rs:960-968 | nothing read and nothing written yet |
| `Relay.CopyBuffer.Refill` | src/io/async_io.rs:977-1033 | a read into the empty buffer shortens the source or finds its end, and stalls or fails exactly when the reader does |
| `Relay.CopyBuffer.WriteSome` | src/io/async_io.rs:977-1033 | one offer to the writer, counted exactly, and stalled or failed exactly when the writer is |
| `Relay.CopyBuffer.Drain` | src/io/async_io.rs:977-1033 | finished means that everything buffered was written; otherwise the writer stalled, failed or took nothing |
| `Relay.CopyBuffer.PollCopy` | src/io/async_io.rs:977-1033 | written bytes, buffered bytes and unread bytes are always the source; success means all of it was written, counted and the writer shut down; each poll terminates, and stalls or fails exactly when one of its two streams does |
| `Relay.Transfer.Poll` | src/io/async_io.rs:1054-1074 | a finished direction repeats its answer and never touches either stream again; an unfinished one stalls or fails exactly when a stream does |
| `Relay.Bidirectional.constructor` | src/io/async_io.rs:1115-1116 | two independent directions with their own buffer sizes |
| `Relay.Bidirectional.Poll` | src/io/async_io.rs:1117-1128 | resolves with both byte counts exactly when each direction has delivered what it had to carry and shut its writer down; fails exactly when a stream fails, and is pending only if one stalled |
| `Relay.AnySchedule` | src/io/async_io.rs:1105-1130 | under any schedule each side holds a prefix of what the other sent; a resolved relay delivered everything if and only if each direction had a buffer or nothing to carry, and nothing without a buffer; it fails only if a stream did and is done after more polls than the four streams can stall |
| `Relay.CopyBuf.Offer` | src/io/async_io.rs:894-942 | writes on from where the last partial write stopped, and stalls or fails exactly when the writer does |
| `Relay.CopyBuf.ConsumeAll` | src/io/async_io.rs:894-942 | bytes leave the reader only when all of them were written |
| `Relay.CopyBuf.Poll` | src/io/async_io.rs:894-942 | `copy_buf` writes exactly what the reader had left, across partial writes and stalls, and flushes it; it stalls or fails exactly when one of its two streams does |
| `Relay.AnyCopy` | src/io/async_io.rs:894-942 | under any schedule, written bytes are a prefix of the source and all of it on success; without faults, and with more polls than the two streams can stall, it succeeds |
| `SimDriver.Disk.constructor` | src/io/uring_fs.rs:834-838 | an empty disk without faults |
| `SimDriver.Disk.Grow` | src/io/uring_fs.rs:802-819 | zero-fills and charges the growth, or refuses it |
| `SimDriver.Disk.OpenFile` | src/io/uring_fs.rs:914-949 | creation, exclusivity and truncation as the flags say |
| `SimDriver.Disk.Read` | src/io/uring_fs.rs:951-986 | a slice of the file, a bad handle, or out of range |
| `SimDriver.Disk.Write` | src/io/uring_fs.rs:988-1026 | grows, applies the bytes a torn-write fault lets through, and returns the whole length as a signed 32-bit number or a negated error number |
| `SimDriver.Disk.Sync` | src/io/uring_fs.rs:1028-1047 | makes the current length durable unless lying |
| `SimDriver.Disk.SetLength` | src/io/uring_fs.rs:1063-1085 | grows, or cuts content and durability |
| `SimDriver.Disk.Preallocate` | src/io/uring_fs.rs:1049-1061 | grows the file or reports why not, even through a closed handle |
| `SimDriver.Disk.CloseHandle` | src/io/uring_fs.rs:1087-1090 | marks a handle closed |
| `SimDriver.Disk.SetDiskFullAt` | src/io/uring_fs.rs:843-845 | sets the size of the disk |
| `SimDriver.Disk.SetFsyncLies` | src/io/uring_fs.rs:852-854 | switches lying fsyncs |
| `SimDriver.Disk.InjectTornWrite` | src/io/uring_fs.rs:864-870 | arms one torn write |
| `SimDriver.Applied` | src/io/uring_fs.rs:1007-1011 | a torn write applies at most its own length |
| `SimDriver.WriteReportsItsLengthIff` | src/io/uring_fs.rs:1014-1024 | the number returned is the length exactly for a successful write below 2^31 bytes, a successful write looks failed exactly if it is longer, and each failure has its own number |
| `SimDriver.LongWriteLooksFailed` | src/io/uring_fs.rs:988-1024 | a successful write of 2^31 bytes that returns a negative number |
| `SimDriver.Disk.RenameFile` | src/io/uring_fs.rs:1096-1118 | moves a path and forgets what it replaces |
| `SimDriver.Disk.RemoveFile` | src/io/uring_fs.rs:1120-1133 | forgets a path and its file |
| `SimDriver.Disk.CrashAndReopen` | src/io/uring_fs.rs:881-910 | a fresh driver with every file cut to its durable length and the total recomputed, in whatever order the files are visited |
| `SimDriver.StepKeepsInv` | src/io/uring_fs.rs:802-1133 | every operation, fault switch and crash keeps the accounts |
| `SimDriver.AccountsAlwaysBalance` | src/io/uring_fs.rs:802-1133 | after every history the bytes in use are the sum of all file lengths, paths and files correspond one to one, and no durable length exceeds its file |
| `SimDriver.NothingSaturates` | src/io/uring_fs.rs:936-943 | no saturating subtraction ever saturates |
| `SimDriver.GrowthIffItFits` | src/io/uring_fs.rs:802-819 | growth is granted if and only if the new total of all files fits the disk |
| `SimDriver.WriteSucceedsIff` | src/io/uring_fs.rs:988-1026 | after every history a write fails on a closed or unknown handle, and else succeeds if and only if the disk has no limit, the file does not grow, or the new total of all files fits |
| `SimDriver.SetLenSucceedsIff` | src/io/uring_fs.rs:1063-1085 | the same for a new length, on any handle that has a file |
| `SimDriver.FallocateSucceedsIff` | src/io/uring_fs.rs:1049-1061 | the same for a preallocation |
| `SimDriver.GrowthIsZeros` | src/io/uring_fs.rs:802-819 | growing keeps every byte and adds zeros |
| `SimDriver.AppliedIsTheFraction` | src/io/uring_fs.rs:1007-1011 | a torn write applies its fraction of the bytes rounded down, any other all of them |
| `SimDriver.FaultIsUsedOnce` | src/io/uring_fs.rs:1004-1013 | a write that succeeds uses a pending fault up, and one that fails changes nothing |
| `SimDriver.CrashKeepsOnlyTheLimit` | src/io/uring_fs.rs:898-909 | of the settings a crash keeps the size of the disk only, and exactly the handles that paths lead to are closed |
| `SimDriver.WrittenBytesReadBack` | src/io/uring_fs.rs:951-1026 | a written range reads back as written up to the tear and unchanged beyond it, and no other file changes |
| `SimDriver.SyncSucceedsIff` | src/io/uring_fs.rs:1028-1047 | success exactly for a handle not closed while the disk lies or the file exists; honest success makes the whole file durable, lying changes nothing |
| `SimDriver.SyncOfNothing` | src/io/uring_fs.rs:1028-1047 | a lying disk reports success for a handle that was never opened |
| `SimContents.OpenShows` | src/io/uring_fs.rs:914-949 | an open fails without effect, finds the content, or leaves an empty file at the path |
| `SimContents.WriteShows` | src/io/uring_fs.rs:988-1026 | a write through a handle changes exactly the one path that names its file |
| `SimContents.SetLenShows` | src/io/uring_fs.rs:1063-1085 | the common prefix is kept and the rest is zeros |
| `SimContents.RenameShows` | src/io/uring_fs.rs:1096-1118 | the content moves, replacing the target, and nothing else changes |
| `SimContents.RemoveShows` | src/io/uring_fs.rs:1120-1133 | exactly that path disappears |
| `SimContents.FallocateShows` | src/io/uring_fs.rs:1049-1061 | zeros are appended up to the end of the range, or nothing changes; a closed handle makes no difference |
| `SimContents.SyncAndCloseShowNothing` | src/io/uring_fs.rs:1028-1094 | neither changes any content, and a closed handle reads no more |
| `SimContents.CrashShows` | src/io/uring_fs.rs:872-910 | every path stays with the durable prefix of its content, all of it exactly if it was durable to the end |
| `SimContents.SyncedContentSurvives` | src/io/uring_fs.rs:872-1047 | an honest fsync right before a crash keeps the file whole |
| `SimContents.ReadShows` | src/io/uring_fs.rs:951-986 | a read is the longest available slice, fails on a closed handle and goes out of range exactly past the end |
| `SimCrash.CrashIsReplay` | src/io/uring_fs.rs:872-910 | for every history, with earlier crashes in it, a crash leaves at each path exactly the replay, on the content at the last honest fsync, of the cuts and in-range writes since |
| `SimCrash.FileSurvivesIff` | src/io/uring_fs.rs:872-910 | for every history, with earlier crashes in it, a crash yields the content at the last honest fsync, cut to the shortest length set since, if and only if every byte overwritten below that length was last written as it had been |
| `SimCrash.AppendOnlyFilesSurvive` | src/io/uring_fs.rs:872-910 | in particular if no write since then starts below the durable length |
| `SimCrash.OverwriteShowsIff` | src/io/uring_fs.rs:885-888 | after every history, a write changes what a crash leaves of its file if and only if one of the bytes it applies differs from the byte it replaces below the durable length |
| `SimCrash.UnsyncedOverwriteSurvives` | src/io/uring_fs.rs:885-888 | the history open, write 1, fsync, write 2, after which a crash leaves 2, and leaves it again after a second crash although the content at the last fsync is still 1 |
| `SimCrash.ReadBehindTheEnd` | src/io/uring_fs.rs:966-978 | a history after which a read past the end slices out of range |
| `Scheduler.Queues.constructor` | src/runtime/mod.rs:730-737 | empty queues |
| `Scheduler.Queues.Schedule` | src/runtime/mod.rs:207-221 | a worker thread enqueues locally, anyone else on the injector |
| `Scheduler.Queues.StealInjector` | src/runtime/worker.rs:57-63 | hands out the oldest entry and moves the rest of a batch to the empty queue of the thief, in order, losing none |
| `Scheduler.Queues.StealSibling` | src/runtime/worker.rs:68-74 | the same from another worker |
| `Scheduler.Queues.PopOwn` | src/runtime/worker.rs:50-52 | takes the oldest entry of the own queue |
| `Scheduler.Queues.StealAround` | src/runtime/mod.rs:247-255 | steals from the first other worker, going round, with anything queued, and counts exactly that; empty-handed if and only if all are empty |
| `Scheduler.Queues.NextTask` | src/runtime/mod.rs:232-258 | prefers the own queue, then the injector, then the nearest other worker with anything queued, loses nothing, counts exactly the steals, and comes back empty if and only if all of them are |
| `Scheduler.Queues.DrainRetired` | src/runtime/worker.rs:129-143 | every leftover entry goes to the injector in order |
| `SchedulerRuns.StepKeepsInv` | src/runtime/worker.rs:40-198 | every step of every thread keeps the count of every entry |
| `SchedulerRuns.NoEntryIsLostOrDoubled` | src/runtime/mod.rs:207-258 | in every interleaving each schedule call's entry is in exactly one place and is run at most once |
| `SchedulerRuns.LeaversRunNothing` | src/runtime/worker.rs:119-145 | from its `block_in_place` on, a thread starts nothing more |
| `SchedulerRuns.LeftoversSurvive` | src/runtime/worker.rs:119-198 | what a thread had queued at any moment from its `block_in_place` on ends in the injector, with another thread, or run by another thread |
| `SchedulerRuns.EveryWorkerIsStaffed` | src/runtime/worker.rs:192-198 | in every run each worker keeps a thread that is not on its way out: whoever blocks in place is replaced |
| `SchedulerRuns.ScheduledWhere` | src/runtime/mod.rs:207-221 | a task scheduled by a worker goes behind its own queue, any other behind the injector |

## Left out

- Sockets, pipes, processes, name lookup, standard streams, timers, reactor back ends and the life cycle of tasks are not part of this model.
- Memory ordering: atomic accesses are sequentially consistent steps; acquire and release orderings are not distinguished.
- Wakers are task numbers, `Arc` reference counts are liveness flags, and mutex poisoning is not modelled.
- The cooperative budget, which can make a poll wake itself and return Pending without touching anything, is not a step of its own.
- Progress is stated as who is awake, not as a promise of the executor to poll them.
- Shutdown of the runtime and of the io_uring driver, and the wake descriptor.
- io_uring results and the length a `SimDriver` read reports are unbounded integers.
- Broadcast sequence numbers, byte counts, and the sums of a position or offset and a length in `SimDriver` are unbounded; in the source they are machine integers whose addition can overflow.
- Torn-write fractions are reals; the rounding of floating-point multiplication is not modelled.
- An inner writer is not called again after it was shut down successfully, so the writers' methods require it to be open.
- An inner reader may stall any number of times, but finitely often; otherwise awaiting a line need not end.
- `UringOps.OpState.Poll`, `UringOps.Driver.ProcessCompletions`, `Signal.ListenerState.Poll`, `Signal.SignalSlot.Dispatch`, `OnceCell.Once.Finish` and `Scheduler.Queues.NextTask` are the uninterrupted forms; their interleavings are the value-level step machines beside them.
- UTF-8 validation of lines; lines are byte strings here.
- Giving the inner stream of a buffered reader or writer out again (`get_mut`, `into_inner`), `BufStream`, and `copy`.
- `Mutex`, `oneshot`, `SetOnce`, the unbounded channel, `duplex` and `simplex`, which are simpler instances of arguments made here.
- The current-thread scheduler flavour and the parking of idle workers.
