# Proofs about async-std's synchronisation, executor and buffered I/O

This project models the concurrent core of async-std 1.4 and its caching I/O state machines, and proves
what they promise over every run.

* **Protocols.** `Channel`, `MutexProtocol`, `RwLockProtocol`, `WakerSetLock`, `FileLockProtocol`,
  `ExecutorProtocol` and `BlockingPoolProtocol` are state machines in which every atomic access of the
  source is one step and any number of threads interleave freely. A thread is a program counter with the
  locals that are still live. A `Run` is any sequence of steps from the initial state (a `FreshRun` for the
  channel, see below); the theorems hold at every index of every run.
* **Objects.** Beside each protocol stands a class with the fields of the source (`Channel`, `WakerSet`,
  `Mutex`, `RwLock`, `Lock`, `Pool`, `File`, `BufWriter`, `BufReader`, `Split`). Its methods update the fields
  the way the source does, and each is proved to be exactly one step of the protocol, or, where the source
  is sequential, exactly the function the lemmas are about.
* **Wakers** are task numbers. A task that was woken is polled again or dropped; a future may be dropped
  while it is suspended, notified or not. `credit` in a program counter is history: it says that the
  operation's waker had been used when it removed its entry.
* **Words.** Channel positions are unbounded history; the machine works on packed words of any width, on
  which `&`, `|`, `^` and wrapping addition are defined digit by digit (`Stamps`). `enc(p)` is
  `(p / cap) * one_lap + p % cap` modulo the word.
* **Adversaries.** Inner readers and writers of the buffered types answer every call from an arbitrary
  script: short counts, `Pending`, interruptions, refusals and errors. Randomness (the first stealer, the
  slab key, spurious failure of a weak exchange, how many bytes a blocking read delivers, how far a vector
  grows) is a parameter.

Four results say where the code does not do what one would expect, and exactly when:

* **The slice of a cached read.** `src/fs/file.rs:676` copies `cache[start..n]` where the cursor update at line
  679 calls for `start..start + n`. A cached read panics if and only if the start lies strictly inside the
  cache (`ReadPanicsExactly`); with the intended slice that whole exception goes away, over every run
  (`RunRefinesExactly`, `IntendedRunRefinesPlainFile`).
* **Reads with an empty buffer.** An empty cache in reading mode stands for the end of the file
  (`src/fs/file.rs:667-673`). It comes to stand for an end that is not there exactly when a read with an empty
  buffer finishes before the end, and that lasts exactly until the next write or moving seek
  (`EofMovesExactly`, `DeafIsExact`); reads for some bytes in between, and no others, report a false end
  (`RunRefinesExactly`).
* **Returns of the condition variable without a notification.** Each leaves `sleep` one higher than the threads
  that sleep, until a notification is spent on nobody. A task in the injector goes unnoticed exactly when such
  a notification is spent (`sleep` is positive and no thread is blocked) by an outside thread while nobody else
  will look (`NoticedExactly`, and over whole runs `NoticedUnlessStranded`). It can happen
  (`SpuriousReturnStrandsTask`), and cannot without such returns (`NothingStrandedUnprovoked`).
* **Words that come round.** A comparison of a copied head or tail can mislead an operation only if the compared
  position has come full circle: it differs from the copied one by a whole number of windows of
  `cap * 2^w / one_lap` messages. An exchange then goes wrong exactly if its slot is not in the stage it claims,
  and a verdict exactly if it is false (`Fresh`, `MisledExactly`). The results on the channel hold over the
  runs in which no step goes wrong, which are exactly the fresh ones (`FreshMeansUnmisled`). Distances alone
  are enough: a run whose comparisons all meet a position less than a window past the copied one is fresh
  (`YoungRunIsFresh`). For every capacity and width there is a run, fresh but for its last step, that overfills
  the channel (`StaleRunOverfills`).

| file | content |
|---|---|
| `Counting.dfy`, `Bytes.dfy`, `Runs.dfy` | counting in sequences, bytes, reachability |
| `WakerSet.dfy`, `WakerSetLock.dfy` | the waker set, and why its critical sections are single steps |
| `Mutex.dfy`, `RwLock.dfy` | the async locks |
| `Stamps.dfy` | packing positions into words |
| `Channel.dfy` | the channel's machine; `ChannelRing.dfy` slots and words, `ChannelWakeups.dfy` wake-ups, `ChannelHandles.dfy` counts and disconnection, `ChannelTheorems.dfy` the results, `ChannelStale.dfy` the limit of the stamps, `ChannelObject.dfy` the class |
| `File.dfy`, `FileLock.dfy` | the cached file and its lock |
| `Executor.dfy`, `BlockingPool.dfy` | worker threads, sleeping, the blocking pool |
| `BufWriter.dfy`, `BufReader.dfy`, `Split.dfy` | buffered byte streams |

`dafny verify dfyconfig.toml` checks everything.

## Model

| member | source | states |
|---|---|---|
| ChannelTheorems.StepRefinesQueue | src/sync/channel.rs:683-840 | every step of any thread is a step of a bounded first-in first-out queue: the successful exchange of the tail appends the message (and the queue was not full), the successful exchange of the head removes the first one, nothing else changes it |
| ChannelTheorems.RunRefinesQueue | src/sync/channel.rs:683-840 | so every run, from the empty channel on, is a run of that queue |
| ChannelTheorems.BoundedAndInOrder | src/sync/channel.rs:683-840 | in every reachable state at most `cap` messages are queued, and every message a receive has taken out for position k, or is about to return, is the k-th accepted one |
| ChannelTheorems.SlotHasOneOwner | src/sync/channel.rs:705-736 | between its exchange and its stamp store an operation has its slot for itself |
| ChannelTheorems.CellsAreSafe | src/sync/channel.rs:723-811 | a writer always finds its cell blank, a reader always finds the message accepted at its position |
| ChannelTheorems.AlwaysEnabled | src/sync/channel.rs:541-568 | the guards of the machine never stop an operation: slot indices are in range, keys are owned, counters positive, cells written |
| ChannelTheorems.SleepingSenderIsHelped | src/sync/channel.rs:145-185 | no lost wake-up: while a send sleeps un-notified, the free slots are at most the receivers that moved the head and have not finished notify_one, plus the notified senders that have not finished their retry; and on a disconnected channel somebody is still telling the senders |
| ChannelTheorems.SleepingReceiverIsHelped | src/sync/channel.rs:382-400 | the same bound for queued messages and receives |
| ChannelTheorems.SleepingStreamIsHelped | src/sync/channel.rs:517-569 | a sleeping stream with messages queued implies a sender still before the end of its notify_all; on a disconnected channel, a disconnector still before notifying |
| ChannelTheorems.SettledSleepersWaitRightly | src/sync/channel.rs:145-185 | no deadlock: when nobody can move unless woken, a sleeping send means full and connected, a sleeping receive or stream means empty and connected |
| ChannelTheorems.StuckSenderHasNoReceiver | src/sync/channel.rs:156-159 | a send pending without a waker sits on a full channel with no receiver left |
| ChannelTheorems.NoneMeansFinished | src/sync/channel.rs:556-556 | a receive returns None only when every accepted message was received and no sender is left |
| ChannelTheorems.NoMessageAfterNone | src/sync/channel.rs:822-830 | once that is so, no message is accepted or received in any later state |
| ChannelTheorems.DropTakesTheRest | src/sync/channel.rs:909-933 | when the channel is dropped every accepted message either was handed to its receive or lies in exactly one of the slots that are dropped, in order |
| ChannelTheorems.LenIsExact | src/sync/channel.rs:843-866 | a tail and a head loaded at one moment give the number of queued messages, marked or not, wrapped or not |
| ChannelTheorems.LenIsMomentary | src/sync/channel.rs:843-866 | len returns the length at the moment the head was loaded if and only if the position the tail had by then and the one it was loaded at agree up to whole windows, or at least up to whole capacities where the indices alone decide or where two different words must tell full from empty |
| ChannelTheorems.IsFullIsTrueOfAMoment | src/sync/channel.rs:885-894 | false from is_full: some moment of the call at which it was not full; on a channel with room, true is answered if and only if the head, a capacity ahead, has come full circle since the tail was loaded |
| ChannelTheorems.IsEmptyIsTrueOfAMoment | src/sync/channel.rs:873-882 | false from is_empty: some moment of the call at which it was not empty; on a channel with messages, true is answered if and only if the tail has come full circle since the head was loaded |
| ChannelWakeups.FullVerdictIsTrue | src/sync/channel.rs:742-756 | when try_send answers Full or Disconnected, the channel is full at that moment |
| ChannelWakeups.EmptyVerdictIsTrue | src/sync/channel.rs:817-830 | when try_recv answers Empty or Disconnected, the channel is empty at that moment |
| ChannelTheorems.MisledExactly | src/sync/channel.rs:714-830 | a step takes a slot it must not, or gives a false verdict, if and only if the compared position has come full circle since it was copied and the slot is not in the claimed stage, or the verdict not true |
| ChannelTheorems.FreshMeansUnmisled | src/sync/channel.rs:683-840 | the runs of the results above are exactly the runs in which no step goes wrong |
| ChannelTheorems.YoungCopyIsFresh | src/sync/channel.rs:640-642 | a comparison with a position less than a whole window past the copied one never misleads |
| ChannelTheorems.YoungRunIsFresh | src/sync/channel.rs:640-642 | a run in which every comparison meets a position less than a window past the copied one is fresh, so all results on the channel hold over it |
| ChannelTheorems.StaleExchangeOverfills | src/sync/channel.rs:714-723 | the bound is sharp: at exactly one window an exchange succeeds on a full channel and takes a slot that is not free |
| ChannelStale.StaleRunOverfills | src/sync/channel.rs:637-723 | for every capacity and word width such a state is reached by a run whose steps are all fresh, and the next step overfills the channel |
| ChannelRing.StepKeepsRing | src/sync/channel.rs:683-840 | every step keeps the invariant of slots, stamps, words, stages and local copies |
| ChannelRing.StampTells | src/sync/channel.rs:705-760 | a loaded stamp compares as it does if and only if the slot is in that stage, for the copied position up to whole windows |
| ChannelRing.TailCasTells | src/sync/channel.rs:714-722 | an exchange of the tail succeeds if and only if the tail has not moved, or moved by whole windows, and the mark is as it was |
| ChannelHandles.HandlesKept | src/sync/channel.rs:274-296 | the counters are the live handles plus those whose drop is under way, and an operation in progress keeps a handle of its side alive |
| ChannelHandles.DisconnectToldKept | src/sync/channel.rs:897-906 | after the mark is set nobody keeps sleeping untold |
| ChannelObject.Channel.WithCapacity | src/sync/channel.rs:637-680 | the mark bit is the next power of two above the capacity, every slot carries its own index as stamp, nobody waits |
| ChannelObject.Channel.LoadSendStamp | src/sync/channel.rs:693-740 | the masks and comparisons of try_send on the slot's stamp, as one step of the protocol |
| ChannelObject.Channel.ExchangeTail | src/sync/channel.rs:706-741 | the weak exchange of the tail, with wrapped new value and mark kept |
| ChannelObject.Channel.LoadHeadWhenBehind | src/sync/channel.rs:742-757 | the verdict Full or Disconnected |
| ChannelObject.Channel.WriteMessage | src/sync/channel.rs:723-725 | the cell of the claimed slot, and only it, gets the message |
| ChannelObject.Channel.StoreSendStamp | src/sync/channel.rs:726-727 | publishes the slot for its reader |
| ChannelObject.Channel.LoadRecvStamp | src/sync/channel.rs:773-816 | the comparisons of try_recv on the slot's stamp |
| ChannelObject.Channel.ExchangeHead | src/sync/channel.rs:783-816 | the weak exchange of the head |
| ChannelObject.Channel.LoadTailWhenBehind | src/sync/channel.rs:817-830 | the verdict Empty or Disconnected |
| ChannelObject.Channel.ReadMessage | src/sync/channel.rs:800-802 | returns the message accepted at the receiver's position and blanks its cell |
| ChannelObject.Channel.StoreRecvStamp | src/sync/channel.rs:803-804 | hands the slot to the sender one lap later |
| ChannelObject.Channel.SetMark | src/sync/channel.rs:897-901 | disconnect sets the mark once; only the first caller goes on to notify |
| ChannelObject.Channel.NotifyWakers | src/sync/channel.rs:729-733 | notify_one and notify_all on the right set, as one step |
| ChannelObject.Channel.DropSuspended | src/sync/channel.rs:177-185 | dropping a suspended send or receive passes an unused notification on |
| ChannelObject.Channel.DropMessages | src/sync/channel.rs:909-933 | the loop of Drop visits exactly the queued messages, in order |
| ChannelTheorems.RestIsQueue | src/sync/channel.rs:914-922 | at rest the slots from the head's index on hold the queue |
| Stamps.Decode | src/sync/channel.rs:693-698 | the masks of the channel find index, mark and lap of every word, and setting or clearing the mark touches nothing else |
| Stamps.EncFits | src/sync/channel.rs:640-642 | a position's word plus one never reaches the mark bit or the end of the word |
| Stamps.AdvancedIs | src/sync/channel.rs:706-713 | the new head or tail is the word of the next position, over lap ends and word wrap |
| Stamps.LapIsCapacity | src/sync/channel.rs:742-747 | adding one_lap modulo the word is adding the capacity to the position |
| Stamps.EncCongruent | src/sync/channel.rs:640-642 | words are equal if and only if their positions lie a whole number of windows apart |
| Stamps.EncDecides | src/sync/channel.rs:705-760 | within a window equal words mean equal positions, and only then |
| Stamps.WindowIsSharp | src/sync/channel.rs:640-642 | at a distance of exactly one window words repeat |
| WakerSets.WakerSet.Insert | src/sync/waker_set.rs:64-72 | a new waiting entry under a vacant key, flag exact again |
| WakerSets.WakerSet.Remove | src/sync/waker_set.rs:75-82 | the entry goes, the counters and the flag stay exact |
| WakerSets.WakerSet.Cancel | src/sync/waker_set.rs:87-106 | a cancelled entry that had been notified wakes the first waiting one instead; true exactly if it did |
| WakerSets.WakerSet.Notify | src/sync/waker_set.rs:154-176 | the loop wakes exactly the entries its mode asks for, in slab order |
| WakerSets.WakerSet.NotifyAny | src/sync/waker_set.rs:112-121 | the flag shortcut is right: afterwards somebody is notified if anybody waited |
| WakerSets.WakerSet.Unlock | src/sync/waker_set.rs:193-211 | the published bits say exactly whether somebody waits and whether somebody is notified |
| WakerSets.NotifyAnyLeavesOneNotified | src/sync/waker_set.rs:154-176 | notify(Any) on a non-empty set leaves an entry notified |
| WakerSets.NotifyOneCounts | src/sync/waker_set.rs:154-176 | notify(One) turns exactly one waiting entry into a notified one, if there is one |
| WakerSets.CancelTransfersNotification | src/sync/waker_set.rs:87-106 | cancelling a notified entry keeps the number of notified entries whenever somebody waits; cancelling a waiting one leaves all others alone |
| WakerSetLock.SectionsAreAtomic | src/sync/waker_set.rs:179-211 | one holder at a time; the released list is the released sections replayed whole, one after the other; a load of the flag at any moment reads what that list says |
| MutexProtocol.AtMostOneGuard | src/sync/mutex.rs:176-182 | mutual exclusion over every run |
| MutexProtocol.SleeperIsHelped | src/sync/mutex.rs:104-135 | unlocked with a sleeper: some unlocker has not finished notify_any, or a notified operation has not retried, also after cancellations |
| MutexProtocol.QuietMeansHeld | src/sync/mutex.rs:255-263 | when all are idle, asleep or holding, a sleeper implies a live guard |
| MutexProtocol.AlwaysEnabled | src/sync/mutex.rs:104-135 | every operation can always take its next step: the key it removes or cancels is in the set |
| MutexProtocol.Mutex.SwapLocked | src/sync/mutex.rs:176-182 | the swap of try_lock acquires exactly if the mutex was free |
| MutexProtocol.Mutex.RecheckLocked | src/sync/mutex.rs:117-122 | pending only if still locked after the waker went in |
| MutexProtocol.Mutex.DropFuture | src/sync/mutex.rs:128-135 | a dropped future passes its notification on |
| MutexProtocol.Mutex.NotifyAny | src/sync/mutex.rs:255-263 | the unlocker's notification as one step |
| RwLockProtocol.StateCountsGuards | src/sync/rwlock.rs:181-206 | the state word is twice the live readers plus the live writer and never overflows |
| RwLockProtocol.WriterExcludesAll | src/sync/rwlock.rs:303-309 | a write guard excludes every other guard |
| RwLockProtocol.SleepingReaderIsHelped | src/sync/rwlock.rs:112-149 | write bit clear with a sleeping reader: a write unlocker is still before its notify_all |
| RwLockProtocol.SleepingWriterIsHelped | src/sync/rwlock.rs:237-271 | state 0 with a sleeping writer: somebody is still going to notify, or a notified reader or writer has yet to retry |
| RwLockProtocol.QuietMeansHeld | src/sync/rwlock.rs:382-430 | when all are idle, asleep or holding, a sleeper implies a guard that blocks it |
| RwLockProtocol.AlwaysEnabled | src/sync/rwlock.rs:112-149 | every operation can always take its next step, save the abort on too many readers: keys are in their sets, the state never runs below zero |
| RwLockProtocol.RwLock.ExchangeForRead | src/sync/rwlock.rs:181-206 | the weak exchange of try_read; a failure goes on with the value seen |
| RwLockProtocol.RwLock.DropReadFuture | src/sync/rwlock.rs:137-149 | cancelling a reader passes its notification on |
| RwLockProtocol.RwLock.DropWriteFuture | src/sync/rwlock.rs:262-271 | cancelling a writer wakes another writer, or sends the caller on to the readers |
| RwLockProtocol.RwLock.ReleaseReadGuard | src/sync/rwlock.rs:382-391 | the last reader goes on to notify a writer |
| RwLockProtocol.RwLock.NotifyAllReaders | src/sync/rwlock.rs:419-430 | a write unlocker that woke no reader goes on to the writers |
| FileCache.RunRefinesExactly | src/fs/file.rs:613-862 | over any run of reads, writes, seeks, flushes and jobs, abandoned or not, a step does what a plain file with contents and one cursor does if and only if it is not a read that starts inside the cache (unless with the intended slice) nor a read for some bytes since an empty read finished before the end |
| FileCache.IntendedRunRefinesPlainFile | src/fs/file.rs:613-862 | with the intended slice and non-empty read buffers every step of every run does what a plain file does |
| FileCache.DeafIsExact | src/fs/file.rs:667-673 | an empty cache stands for an end that is not there exactly between an empty read before the end and the next write or moving seek |
| FileCache.EofMovesExactly | src/fs/file.rs:667-673 | the same for one step, in both directions |
| FileCache.StepRefinesExactly | src/fs/file.rs:613-862 | one step does what a plain file does if and only if it is none of those two reads |
| FileCache.JobIsInvisible | src/fs/file.rs:704-729 | a read, drain or flush job leaves the abstract file as it was |
| FileCache.ReadPanicsExactly | src/fs/file.rs:674-679 | a cached read panics if and only if the start lies strictly inside the cache |
| FileCache.ReadRefinesExactly | src/fs/file.rs:658-731 | a read neither panics nor departs from a plain read if and only if the start is not inside the cache, and an empty cache is at the end or nothing was asked for |
| FileCache.IntendedReadRefinesExactly | src/fs/file.rs:674-681 | with the slice the cursor update calls for, the first of the two conditions is not needed |
| FileCache.SecondCachedReadPanics | src/fs/file.rs:674-679 | reading two cached bytes one at a time panics |
| FileCache.EmptyReadFakesEof | src/fs/file.rs:667-673 | after an empty read the next read reports an end that is not there |
| FileCache.WriteRefines | src/fs/file.rs:760-799 | a write accepts a prefix and appends it to what was written before, whatever the cache held |
| FileCache.SeekRefines | src/fs/file.rs:613-655 | every seek lands where a plain file would, inside the read cache or beyond it |
| FileCache.PendingWriteDrains | src/fs/file.rs:793-798 | a pending write has started to drain, after which it is accepted whole |
| FileCache.FlushProgresses | src/fs/file.rs:835-862 | a pending flush comes closer to its end with every job; at the end the inner file holds the abstract contents |
| FileCache.File.PollRead | src/fs/file.rs:658-731 | the poll on the fields, with all four ways out; it is a plain read exactly under those conditions |
| FileCache.File.PollWrite | src/fs/file.rs:760-799 | the poll on the fields: unread, reserve, copy or drain |
| FileCache.File.PollSeek | src/fs/file.rs:613-655 | the poll on the fields |
| FileCache.File.Drop | src/fs/file.rs:312-320 | dropping ends, flushed, with everything ever written in the inner file |
| FileLockProtocol.PendingTaskIsWoken | src/fs/file.rs:496-550 | one guard at a time, with a task or a job; a task whose poll returned Pending, for want of the lock or with its own job under way, has been woken since, or is listed and the file is locked or a releaser is about to wake the list |
| FileLockProtocol.NeverStuck | src/fs/file.rs:496-550 | a task or job inside the lock always has a next step, or waits for the list of one that has |
| FileLockProtocol.Lock.MoveGuardIntoJob | src/fs/file.rs:704-729 | a registered task gives its guard to a job, which holds the lock from then on |
| FileLockProtocol.Lock.RetryLock | src/fs/file.rs:502-510 | the second swap, under the list's mutex |
| FileLockProtocol.Lock.DrainWakers | src/fs/file.rs:538-548 | dropping the guard wakes everybody listed |
| ExecutorProtocol.TasksAreConserved | src/task/executor/pool.rs:76-178 | every scheduled copy of a task was started or is in exactly one slot, queue, hand or the injector; and a worker that is about to wait, or waits, has an empty slot and an empty queue |
| ExecutorProtocol.NoticedExactly | src/task/executor/sleepers.rs:40-51 | a step leaves a task in the injector unnoticed if and only if it spends a notification on nobody (`sleep` positive, no thread blocked), by an outside thread, with nobody else about to look |
| ExecutorProtocol.NoticedUnlessStranded | src/task/executor/sleepers.rs:30-51 | over every run, spurious returns included: the injector is noticed throughout if and only if there is no such step |
| ExecutorProtocol.InjectedTaskIsNoticed | src/task/executor/sleepers.rs:30-51 | until such a step, a non-empty injector implies a stored notification, a thread inside notify_one, or a worker that will look again before it sleeps |
| ExecutorProtocol.NothingStrandedUnprovoked | src/task/executor/sleepers.rs:30-51 | without spurious returns `sleep` is exactly the number of sleeping threads and there is no such step |
| ExecutorProtocol.AsleepHoldsNothing | src/task/executor/pool.rs:98-131 | when all workers sleep and nobody schedules, everything ever scheduled was started or lies in the injector |
| ExecutorProtocol.AsleepMeansFinished | src/task/executor/pool.rs:98-131 | and the injector is empty, unless there was such a step |
| ExecutorProtocol.WaitingTaskMovesUp | src/task/executor/pool.rs:134-178 | a queued task stays in order and every call of find_runnable is paid for by the queue or by at most 16 slot runs |
| ExecutorProtocol.LocalQueueIsFair | src/task/executor/pool.rs:134-152 | a task at depth d of a local queue has left it after 17 * (d + 1) calls of find_runnable, the last one not about to pop the queue |
| ExecutorProtocol.NeverStuck | src/task/executor/pool.rs:76-178 | a thread that is neither idle outside nor asleep always has a next step |
| ExecutorProtocol.SpuriousReturnStrandsTask | src/task/executor/sleepers.rs:30-37 | such a step is reachable: after one spurious return a task can lie in the injector with the only worker asleep |
| ExecutorProtocol.Pool.TakeFromSlot | src/task/executor/pool.rs:141-149 | the slot is used unless empty or used 16 times in a row |
| ExecutorProtocol.Pool.StealFromPeer | src/task/executor/pool.rs:158-177 | one stealer of the round; an unfruitful round is repeated exactly if some steal asked for it |
| ExecutorProtocol.Pool.CountFailure | src/task/executor/pool.rs:116-128 | five failures in a row lead to wait, with nothing left of its own |
| ExecutorProtocol.Pool.WaitForWork | src/task/executor/sleepers.rs:30-37 | a stored notification is taken, otherwise the thread is counted and sleeps |
| ExecutorProtocol.Pool.ScheduleTask | src/task/executor/pool.rs:76-94 | a worker's task goes to its slot and displaces the old one, any other goes to the injector |
| ExecutorProtocol.Pool.NotifyOne | src/task/executor/sleepers.rs:40-51 | one sleeper is woken, or the notification is stored; a noticed injector stays noticed exactly unless the call strands it |
| BlockingPoolProtocol.SleepingIsExact | src/task/spawn_blocking.rs:69-119 | SLEEPING is the number of threads counted as waiting, is at least 1 or about to be restored, and is positive whenever a thread subtracts from it |
| BlockingPoolProtocol.BusyPoolStillListens | src/task/spawn_blocking.rs:69-119 | however many threads are busy for ever, one sits in recv_timeout and can take the next task |
| BlockingPoolProtocol.TasksAreConserved | src/task/spawn_blocking.rs:40-48 | every task sent is in the channel, in one thread's hands, or started |
| BlockingPoolProtocol.Pool.LeaveSleepers | src/task/spawn_blocking.rs:80-99 | the subtraction never wraps; the last sleeper stays or starts a thread |
| BlockingPoolProtocol.Pool.StartThread | src/task/spawn_blocking.rs:69-78 | first counted, then spawned |
| BufferedWriter.PollKeepsOrder | src/io/buf_writer.rs:268-321 | a poll adds to the stream exactly what it reported, behind everything accepted before; large writes, flushes, closes and seeks reach the inner writer only when the buffer is empty |
| BufferedWriter.CallsKeepOrder | src/io/buf_writer.rs:268-351 | the same over any sequence of calls and any answers: inner bytes followed by the unwritten buffer are the accepted bytes |
| BufferedWriter.FlushBufKeepsOrder | src/io/buf_writer.rs:268-299 | the flush loop loses and repeats nothing, also when it stops half-way |
| BufferedWriter.WillingWriterEmptiesBuffer | src/io/buf_writer.rs:268-299 | a writer that takes at least a byte per call gets the whole buffer in one poll |
| BufferedWriter.BufWriter.PollFlushBuf | src/io/buf_writer.rs:268-299 | the loop on the fields |
| BufferedWriter.BufWriter.PollWrite | src/io/buf_writer.rs:303-316 | the poll on the fields |
| BufferedReader.ReadDelivers | src/io/buf_reader.rs:202-219 | a read delivers the bytes at the caller's position, and none only if the inner reader has ended |
| BufferedReader.SeekLands | src/io/buf_reader.rs:295-334 | a finished seek lands at the caller's position plus the distance on both paths; otherwise the position is unchanged, also between the two seeks; only an impossible destination is refused |
| BufferedReader.SeekFullyLands | src/io/buf_reader.rs:295-334 | the same for a seek polled to its end through any answers |
| BufferedReader.PlayIsPlain | src/io/buf_reader.rs:202-334 | over any calls, seeks included, whatever the inner reader answers and however often a seek is polled, the caller gets what a plain reader with contents and one position gives |
| BufferedReader.DeliveredIsPrefix | src/io/buf_reader.rs:202-262 | between two seeks, delivered bytes followed by the unread buffer are a stretch of the inner contents without gap or repetition |
| BufferedReader.BufReader.PollFillBuf | src/io/buf_reader.rs:241-257 | fills the array in place when it is used up |
| BufferedReader.BufReader.PollRead | src/io/buf_reader.rs:202-219 | bypass or buffered read on the fields |
| BufferedReader.BufReader.PollSeek | src/io/buf_reader.rs:295-334 | the seek on the fields, one or two inner seeks |
| DelimiterSplit.ReadUntilMoves | src/io/buf_read/mod.rs:344-368 | stops right behind the first delimiter or at the end, keeps every byte otherwise |
| DelimiterSplit.PollNextYields | src/io/buf_read/split.rs:34-50 | a poll yields exactly the next piece of the pure split, or nothing |
| DelimiterSplit.ItemsArePieces | src/io/buf_read/split.rs:34-50 | for every chunking, busy time and error the items are the first pieces, and at the end all of them |
| DelimiterSplit.ChunkingDoesNotMatter | src/io/buf_read/split.rs:34-50 | two readers over the same bytes give the same items, and joining them gives back the bytes up to one trailing delimiter |
| DelimiterSplit.CollectFinishes | src/io/buf_read/mod.rs:344-368 | a reader that shows bytes often enough, however often it is busy or fails in between, leads to the end of the stream: one answer per byte and two more are enough |
| DelimiterSplit.JoinedPieces | src/io/buf_read/split.rs:43-50 | splitting and joining is the identity up to one trailing delimiter, and no piece contains it |
| DelimiterSplit.PiecesOfJoined | src/io/buf_read/split.rs:43-50 | joining and splitting is the identity on pieces without the delimiter |
| DelimiterSplit.Split.ReadUntilInternal | src/io/buf_read/mod.rs:344-368 | the loop on the fields |
| DelimiterSplit.Split.Next | src/io/buf_read/split.rs:34-50 | the poll on the fields |

## Left out

- Weak memory: accesses are sequentially consistent; fences, orderings and `Backoff` have no counterpart, and a spinning thread goes back to the head of its loop.
- `Pin`, raw memory and `Arc` counts; the abort when more than `isize::MAX` handles are cloned.
- Words that come round: the channel's results hold over the runs in which no step is misled (`FreshRun`); from the first misled step on nothing is claimed. With 64-bit words a window is at least 2^61 messages.
- Borrow rules of channel handles are over-approximated: an operation may start whenever some handle of its side is alive, and the last handle of a side is not dropped under an operation of that side.
- The three loads of `len` are steps of the channel machine; the class computes the length from two words that belong together.
- Critical sections of the waker set, of the executor's `sleep` mutex and the operations of the crossbeam queues are single steps; for the waker set `WakerSetLock` says why. A batch steal may take any non-empty prefix.
- The slab's choice of key is any vacant key; `async_task`, `std` files, the condition variable and vectors are what their interfaces promise.
- Panics inside tasks (they abort the process) and threads that cannot be spawned.
- `File`: I/O errors, append mode, files changed by others, `set_len`, `sync_all` and metadata; `poll_close` does nothing; file positions are unbounded above.
- `BufReader`: vectored reads (they differ in where the bytes go), and a reader that scribbles over the buffer in a read that fails; `into_inner` of both buffered types.
- `Lines`, `read_line` and UTF-8; stream and future combinators; `Barrier`; networking, paths and the rest of `fs`.
