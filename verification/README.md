# Verified model of the foundation framework

This project models the stateful protocols of the `foundation-framework` Go library and proves
what they keep, and exactly when.

- **Redis lock** (`RedisLock`, `LockProtocol`, `StrayRenewals`, `JobTurns`). A lock object has a local flag, a
  lease in the store and background renewers. `RedisLock` holds the object's methods, each proved
  against a specification; `LockProtocol` interleaves every store access, flag access and renewer
  step of any number of lock objects over time.
- **Job executor** (`XxlTask`, `ExecutorProtocol`, `ExecutorCallbacks`). Both task lists hold
  references to one mutable `Task` per handler. `XxlTask` models that heap with classes;
  `ExecutorProtocol` interleaves requests, task goroutines and callbacks between any two list
  operations.
- **Transactional outbox** (`OutboxTable`, `OutboxSend`, `JsonCodec`, `OutboxProtocol`). Message rows are saved
  with the business work; commit starts publishers, broker acks delete rows, a retry job and a
  purge run beside them.
- **Consumer, dead letters, retry** (`DeadLetters`, `DeadRetryEnds`, `ConsumerProtocol`,
  `ConsumerPlaces`, `ConsumerLaws`, `ConsumerAttempts`). The whole way of a message from a business
  queue to an ack, the dead queue, the dead-message table and its retries.
- **Smaller algorithms**: the caching request context (`RequestContext`), error chains across the
  RPC boundary (`Errors`), canonical endpoint lists (`Endpoints`), round robin (`RoundRobin`),
  decimal printing of ids (`Decimal`). `Common`, `Paging` and `StringOrder` hold what several of them use.

Each protocol is a `Step` datatype with `Enabled` and `Apply`; a run is a sequence of steps, and a
`Rules` record says what a run is required to keep to. The main theorems hold for every run and
have the form "always, if and only if these rules hold": one direction is an invariant kept by
every step, the other a run, written down step by step, for each rule that is dropped. Lemmas named
`...InSteps` connect the two levels: a call whose steps nothing interrupts does what the
specification of its method says.

## What the code does differently from its documentation

- `LockWithContext` is documented to retry until the deadline (readme.md:1041). It does not: its
  `select` has one case, so after a failed Acquire it waits for the context to end and gives up
  (`RedisLock.LockWithContextTriesOnce`).
- Lock and TryLock take their first lease with the expire value the object had before, and a new
  object has 0. A wrapper on a new object whose function outlasts that lease cannot unlock; its
  flag stays up and its renewer then keeps the key for ever (`RedisLock.ExpiredWrapperKeepsTheKey`).
  `RedisLock.OneRenewerUnlocks` says exactly when a wrapper frees the key.
- `LockFuncWithContext` without a deadline does not run its function, but its deferred Unlock takes
  the key from an outer hold through the same object (`RedisLock.LockFuncWithContextUnlocks`).
- Mutual exclusion needs more than timely renewals and an Acquire that never fails: a lost reply to
  Release leaves the flag up, and later locks through that object then start no renewer; calls
  through one object that overlap or nest break it too. `LockProtocol.ExclusiveExactlyUnderTheRules`
  has the exact condition.
- A failed commit is reported as success and its messages are published (orm/gorm.go:72-74, 119).
- The purge removes rows by age alone, delivered or not, so a message is not "retried until it
  succeeds" (readme.md:1230) but for seven days; exactly when it stays listed for retry or is acked,
  says `OutboxProtocol.KeptUntilSentExactlyIfPurgeFindsMarked`.
- Nor is it retried as long as it is listed. Each turn of a job takes its lock through a new object,
  and a turn that outlasts that object's first lease and ends before the first renewal, as one with
  rows to send may, leaves a renewer that keeps the lock from every later turn
  (`JobTurns.TurnRunsExactlyAfterNoneOverlong`).
- For the same reason the job locks do not keep two processes from running a job at once. Two
  dead-message retry jobs work from their own copies of the rows: one can undo what the other has
  charged or removed (`ConsumerAttempts.StaleCopyRepeats`, `ConsumerLaws.StaleCopyRestores`).
- `DelayedTime` is never saved, so retries of delayed messages are immediate
  (`OutboxSend.RetryKeepsTheDelay`).
- A message the broker returns as unroutable may still count as sent: the `select` may take the ack
  that follows the return, and a return between the two registrations is dropped
  (`OutboxProtocol.MarkedWereRoutedExactlyIfReturnsCount`).
- With Multipart, Requeue and several workers one failed delivery puts older ones back as well, even
  redelivered ones, so attempts have no bound (`ConsumerAttempts.MultipartRequeueRepeats`).
- A dead message whose queue has no listener makes the retry loop run forever, and so do
  panics and failed writes that recur; none of them is counted as an attempt.
- COVER_EARLY: the covered run's late callback deletes its successor's entry in the run list. So
  does a callback that panics and is entered again by the deferred handler of Task.Run.
- A kill can read nil if a callback takes the key between its two reads; exactly then
  (`ExecutorProtocol.NilReadExactlyByCallbacks`).

## Model

| member | source | states |
|---|---|---|
| Decimal.ParseFormatNat | xxl/util.go:9-11 | printing a natural number and reading it back gives the number; it never starts with a minus sign |
| Decimal.ParseFormatInt | xxl/util.go:9-11 | printing any integer and reading it back gives the integer |
| Decimal.FormatIntInjective | xxl/util.go:9-11 | distinct job ids print as distinct run-list keys |
| Decimal.PrintsPlainDigits | xxl/util.go:9-11 | a natural prints as digits, with a leading zero only for zero |
| Decimal.PrintsTheSign | xxl/util.go:9-11 | a negative number prints as its absolute value behind a minus sign |
| RedisLock.Store.Acquire | redis/redis.go:47 | the store's atomic acquire: succeeds exactly for a free, expired or own key and then sets the full new lease |
| RedisLock.Store.Release | redis/redis.go:124 | the store's atomic release: deletes exactly an own unexpired key |
| RedisLock.Lock.MarkHeld | redis/redis.go:55-60 | raises the flag and starts one renewer, unless the flag is up already |
| RedisLock.Lock.TryLock | redis/redis.go:103-121 | true exactly if the store answers and the key can be had; then the key is owned for the old expire value, the next leases are 60 s, the flag is up and a renewer started unless it was; else nothing changes |
| RedisLock.Lock.Lock | redis/redis.go:45-67 | true exactly if the store answers; the polling loop ends, at the first 10 ms poll after a foreign lease, in the state TryLock reaches then; on an error nothing changes |
| RedisLock.Lock.LockWithContext | redis/redis.go:69-101 | true exactly with a deadline, a store that answers and a key that can be had, and then under a 60 s lease; no deadline changes nothing, an error only the expire value, a foreign key only that and the time |
| RedisLock.Lock.Unlock | redis/redis.go:123-135 | frees the key and lowers the flag exactly if the store answers and the object owns the key; else changes neither |
| RedisLock.Lock.Renew | redis/redis.go:164-176 | one renewer turn: sleeps 50 s; goes on, under a new lease, exactly if the flag is up, the store answers and the key can be had |
| RedisLock.LockWaitsOutTheLease | redis/redis.go:45-67 | Lock always gets the key: at once if it can be had, else within one 10 ms poll after the foreign lease ends and never earlier |
| RedisLock.LockWithContextTriesOnce | redis/redis.go:76-97 | LockWithContext succeeds if and only if the key can be had at the moment of the call, even if the foreign lease ends well before the deadline |
| RedisLock.UnlockSparesOtherOwners | redis/redis.go:123-135 | Unlock after a failed lock call changes nothing of a key another object owns |
| RedisLock.ErrorsFailSafe | redis/redis.go:45-176 | with a store that errs every lock call fails, none and no Unlock touches key, flag or renewers, and a renewer turn is its last |
| RedisLock.SuccessOwnsTheKey | redis/redis.go:45-121 | a lock call that succeeds owns the key, for the old expire value or with a context 60 s |
| RedisLock.TryLockFuncUnlocks | redis/redis.go:155-162 | TryLockFunc, for a function of any duration: it runs exactly if the key can be had and its error comes back; the deferred Unlock frees the key if and only if the function ends within the old expire value or after a renewer turn; else the flag stays up over an expired lease |
| RedisLock.LockFuncUnlocks | redis/redis.go:137-144 | LockFunc: always runs, from the poll that gets the key, with the same condition for freeing it |
| RedisLock.LockFuncWithContextUnlocks | redis/redis.go:146-153 | LockFuncWithContext: with a deadline it frees the key unless the function outlasts a full lease without a renewer turn; a loser leaves key and flag alone; without a deadline nothing runs and the key is left alone if and only if the object does not own it |
| RedisLock.OneRenewerUnlocks | redis/redis.go:137-162 | through an object without a renewer LockFuncWithContext frees the key unless it finds the flag up and the function outlasts the lease; the others if and only if the function ends within the first lease, or the call started a renewer and the function lasts to its turn |
| RedisLock.RenewedForever | redis/redis.go:164-176 | through any number of turns the renewer finds its own key under a lease that outlasts its sleep |
| RedisLock.ExpiredWrapperKeepsTheKey | rabbitmq/rabbitmq.go:402-422 | after a TryLockFunc that started a renewer and did not free the key, the renewer owns it after its first and every later turn, and at no moment in between can another object lock |
| RedisLock.InnerUnlockEndsTheOuterHold | redis/redis.go:54-57 | nested locks through one object are not counted: after the inner Unlock another object can lock |
| LockProtocol.HeldIsLeased | redis/redis.go:164-176 | in every state the rules allow, a held key is still under its owner's unexpired lease |
| LockProtocol.StepKeepsInv | redis/redis.go:45-176 | every step of lock calls, unlocks, renewers and time keeps the lease invariant |
| LockProtocol.MutualExclusion | redis/redis.go:45-176 | in every interleaving under the rules no two lock objects are both between a successful lock and the Unlock that answers it; nested locks each count |
| LockProtocol.ShortFirstLease | redis/redis.go:103-113 | a run of TryLock with a first lease below 60 s in which two objects hold the key |
| LockProtocol.LateRenewal | redis/redis.go:164-176 | a run with a renewal that comes too late in which two objects hold the key |
| LockProtocol.FailedRenewal | redis/redis.go:171-174 | a renewer gives up after one Acquire error, and later two objects hold the key |
| LockProtocol.SharedObject | redis/redis.go:83-90 | a lock between another goroutine's Release and its store of the flag starts no renewer, and later two objects hold the key |
| LockProtocol.LostReleaseReplyStopsRenewal | redis/redis.go:123-135 | after an error from Release the flag stays up, later locks start no renewer, and two objects hold the key |
| LockProtocol.NestedLock | redis/redis.go:54-57 | two successful locks through one object and one Unlock let a second object in while one lock is still unanswered |
| LockProtocol.DeferredUnlockSteals | redis/redis.go:146-153 | a run in which the deferred Unlock of a wrapper that did not lock frees the key of an outer lock, and a second object gets in |
| LockProtocol.ExclusiveExactlyUnderTheRules | redis/redis.go:45-176 | every run is exclusive if and only if Acquire and Release never err, renewals are on time, calls through one object neither overlap nor nest, and each lock call starts with a full lease |
| LockProtocol.SlowestEntry | redis/redis.go:77-90 | a run under all the rules in which a call takes 59.999 s to start its renewer and the lock is held |
| LockProtocol.HeldThroughRenewals | redis/redis.go:164-176 | a run under all the rules in which a lock is held through any number of renewals, each in the last millisecond |
| LockProtocol.TryLockInSteps | redis/redis.go:103-121 | TryLock's steps, uninterrupted, reach the state and result of its specification |
| LockProtocol.LockInSteps | redis/redis.go:45-67 | the same for the polling Lock |
| LockProtocol.LockWithContextInSteps | redis/redis.go:69-101 | the same for LockWithContext, both outcomes |
| LockProtocol.UnlockInSteps | redis/redis.go:123-135 | the same for Unlock, whose result is whether its Release deleted the key |
| LockProtocol.RenewInSteps | redis/redis.go:164-176 | the same for one renewer turn |
| LockProtocol.ErringLockInSteps | redis/redis.go:47-51 | an Acquire that errs ends any lock call in the state and result of its specification, and lets nobody in |
| LockProtocol.ErringUnlockInSteps | redis/redis.go:124-128 | the same for a Release that errs |
| LockProtocol.ErringRenewInSteps | redis/redis.go:171-174 | a renewer whose Acquire errs exits, as its specification says |
| LockProtocol.LostReplyTookTheLease | redis/redis.go:77-80 | an Acquire whose reply is lost after its script ran has taken the lease all the same |
| StrayRenewals.UnlockQuiets | redis/redis.go:123-132 | a successful Unlock that is its object's only call leaves no call and no raised flag |
| StrayRenewals.AtMostOneMoreRenewal | redis/redis.go:164-176 | after that, in every interleaving, a renewer calls Acquire at most once more, calls that err included, and only if it had already read the flag as up |
| StrayRenewals.RenewerEnds | redis/redis.go:164-176 | besides, it has exited for good once it has looked at the flag again |
| StrayRenewals.OwnsAtMostOneLeaseMore | redis/redis.go:164-176 | the object owns the key no longer than one lease after the last Acquire script a renewer ran, its reply lost or not, and without one only while nobody touched the entry |
| StrayRenewals.NoRenewalLeft | redis/redis.go:164-176 | if no renewer is past its check at the Unlock, none renews in any continuation |
| JobTurns.TurnRunsExactlyAfterNoneOverlong | rabbitmq/rabbitmq.go:396-422 | for any sequence of turns of a job, each through a new lock object, the next turn gets the lock if and only if no earlier turn outlasted its first lease and ended before the first renewal |
| JobTurns.EveryTurnRunsExactlyWithALongLease | rabbitmq/rabbitmq.go:396-422 | every turn gets the lock, whatever the earlier ones lasted, if and only if a new object's first lease lasts to the renewal |
| XxlTask.TaskList.Set | xxl/task_list.go:12-16 | maps the key to the task and changes no other key |
| XxlTask.TaskList.Get | xxl/task_list.go:19-23 | the task under the key, or null |
| XxlTask.TaskList.Del | xxl/task_list.go:33-37 | removes the key and no other |
| XxlTask.TaskList.Exists | xxl/task_list.go:45-50 | whether the key is mapped |
| XxlTask.Executor.RegTask | xxl/executor.go:125-130 | a new record for the handler, referenced by the registration list, all other records and lists unchanged |
| XxlTask.Executor.Launch | xxl/executor.go:166-184 | overwrites the handler's one shared record and lists it under the printed job id, through aliased references |
| XxlTask.Executor.CoverEarly | xxl/executor.go:153-158 | cancels what the listed record holds now and deletes the key that record prints |
| XxlTask.Executor.RunTask | xxl/executor.go:133-187 | not registered exactly for an unknown handler, already running exactly for a listed job without COVER_EARLY, else accepted: then the handler's record is listed under the job's key with this request and the newest context; and the whole new memory |
| XxlTask.Executor.KillTask | xxl/executor.go:190-205 | accepted exactly if the job's key is listed, not running otherwise; cancels what the record holds and removes the key and no other, or changes nothing |
| XxlTask.Executor.IdleBeat | xxl/executor.go:245-263 | busy exactly if the job's key is listed |
| XxlTask.Executor.CallbackDel | xxl/executor.go:331-332 | deletes the key of the id the shared record holds at that moment |
| ExecutorProtocol.LaunchFindsNoneLive | xxl/executor.go:166-182 | under the rules a launch meets no live run of its job and none on the record it overwrites |
| ExecutorProtocol.StepKeepsInv | xxl/executor.go:133-205 | every step of requests, goroutines and callbacks keeps the run-list invariant |
| ExecutorProtocol.RunListExact | xxl/executor.go:133-205 | in every interleaving under the rules the run list's keys are exactly the jobs with a live uncancelled run, one each, and each entry prints as its key and cancels that run |
| ExecutorProtocol.ExactWhenIdle | xxl/executor.go:133-205 | with no request under way there is no exception to that |
| ExecutorProtocol.WorksUnderItsOwnContext | xxl/task.go:27-36 | a goroutine that reads its cancel function and its context from the shared record only once it runs still gets its own |
| ExecutorProtocol.KillCancelsItsJob | xxl/executor.go:196-203 | a kill cancels the one run of its job and no other; if the entry is gone since Exists, the job has no active run |
| ExecutorProtocol.TwoJobsOnOneHandler | xxl/executor.go:167-181 | with two job ids on one handler the first job's callback deletes the second's entry |
| ExecutorProtocol.CoveredRunUnlistsItsSuccessor | xxl/executor.go:153-158 | a COVER_EARLY run after which the successor works while the run list is empty |
| ExecutorProtocol.PanickedCallbackUnlistsItsSuccessor | xxl/task.go:28-35 | a run in which a callback that panics is entered again by the deferred handler and deletes the entry of a successor on another record |
| ExecutorProtocol.KillReadsNil | xxl/executor.go:196-202 | a run in which killTask reads nil between Exists and Get |
| ExecutorProtocol.NilReadExactlyByCallbacks | xxl/executor.go:196-202 | no kill reads nil, in every run, if and only if no callback takes the job's key between its two reads |
| ExecutorProtocol.ExactExactlyUnderTheRules | xxl/executor.go:133-205 | the run list is always exact if and only if no job restarts before its cancelled run has called back, no callback panics, and either no handler serves two jobs or no handler is launched while a run on its record is unreported |
| ExecutorProtocol.RunTaskInSteps | xxl/executor.go:133-187 | runTask's steps, uninterrupted, reach the memory of its specification and launch exactly if accepted |
| ExecutorProtocol.KillTaskInSteps | xxl/executor.go:190-205 | killTask's steps, uninterrupted, reach the memory of its specification and read no nil |
| ExecutorCallbacks.OneCallbackPerLaunch | xxl/task.go:27-42 | from the start, in every interleaving in which no callback panics, launches are the runs that have not posted plus the posts, and each run has posted once from its post on, through the callback of its result, its error or its panic |
| ExecutorCallbacks.TaskRunInSteps | xxl/task.go:27-42 | a goroutine left alone takes its key off the list, posts once with its launch's log id and code 200 for nil and 500 for an error or a panic, and cancels its context exactly after a panic |
| ExecutorCallbacks.PanicsExactlyCancel | xxl/task.go:28-35 | in every interleaving in which no callback panics a goroutine cancels only after its task has panicked, and has done so at its end |
| ExecutorCallbacks.PanickedCallbackPostsTwice | xxl/task.go:28-35 | a callback that panics after its post posts again and reports a success as a failure |
| ExecutorCallbacks.EachOnceExactlyIfCallbacksReturn | xxl/task.go:27-42 | every run posts at most once, exactly once if it has come to its end, and with code 200 exactly for nil, if and only if no callback panics |
| ExecutorCallbacks.CallbackReportsTheLatest | xxl/executor.go:331-333 | a callback carries the log id of the latest launch on its record |
| ExecutorCallbacks.CallbackReportsItsSuccessor | xxl/executor.go:331-333 | a run in which a callback carries its successor's log id |
| ExecutorCallbacks.OwnLogIdsExactlyWithoutOverlap | xxl/util.go:14-29 | every callback carries its own request's log id, in every run, if and only if runs of one handler never overlap |
| ExecutorCallbacks.RelaunchUnderTheRules | xxl/executor.go:133-205 | a run under all the rules in which a job is launched, killed, and launched again after its callback |
| OutboxTable.Connection.Commit | orm/gorm.go:72-74 | applies the transaction or, if the database fails it, nothing; the caller cannot tell |
| OutboxTable.Connection.Save | rabbitmq/transactional_msg.go:30-34 | upserts the row or reports the failure |
| OutboxTable.Connection.DeletedById | rabbitmq/transactional_msg.go:36-39 | marks this row and changes nothing else of it or of any other |
| OutboxTable.DeletedTransactionalMsg | rabbitmq/rabbitmq.go:88-109 | a turn of the purge keeps exactly the rows of the last seven days, as they are |
| OutboxTable.PurgeIgnoresDelivery | rabbitmq/transactional_msg.go:41-44 | marking any rows as delivered, before or after, makes no difference to what the purge keeps |
| OutboxTable.Connection.ListTrigerMsg | rabbitmq/transactional_msg.go:23-28 | up to 100 distinct unmarked rows whose trigger time has come, all of them if there are fewer |
| OutboxTable.RabbitMqMessageRetrySend | rabbitmq/rabbitmq.go:403-421 | the retry loop's pages, with acks for any earlier page coming in between, form a run that stops only at an empty listing |
| OutboxTable.RoundShrinksLive | rabbitmq/rabbitmq.go:405-419 | a fully acked page takes its length off the live rows |
| OutboxTable.AckMarks | rabbitmq/rabbitmq.go:447-452 | an ack takes its row out of every later listing, however many rounds after its publish it comes |
| OutboxTable.RetryEndsAfterAllPages | rabbitmq/rabbitmq.go:403-421 | if all live rows are due and each page is acked in time, nothing is due if and only if ceil(n/100) rounds have been published |
| OutboxTable.UnackedRowStaysDue | rabbitmq/rabbitmq.go:403-421 | a due row whose ack never comes stays due in every round, whatever else is acked |
| OutboxTable.RetryEndsExactlyIfAnswered | rabbitmq/rabbitmq.go:403-421 | if all live rows are due, the rounds are bounded if and only if each of them is acked, within any number of rounds of its publish |
| OutboxSend.RetrySendsTheSameValue | rabbitmq/rabbitmq.go:425-457 | stored text, IsJson branch and republish give the same JSON value as the first publish if and only if the payload is not a Go string |
| OutboxSend.RetryKeepsTheDelay | rabbitmq/rabbitmq.go:436-452 | a retry and the first publish ask for the same delay if and only if none was asked for |
| OutboxSend.FirstAttempt | rabbitmq/rabbitmq.go:562-599 | the first publish byte for byte: a Go string as it is, else the JSON text, with the delay asked for if positive; nothing for what Marshal rejects |
| OutboxSend.RetryAttempt | rabbitmq/rabbitmq.go:425-457 | a retry byte for byte: an object or null written anew, any other text as stored; twice if the row has a delay |
| OutboxSend.DueAfterAMinute | rabbitmq/rabbitmq.go:539-540 | a saved row is due exactly from a minute after its save, and has no delay |
| JsonCodec.FaithfulCodecExists | rabbitmq/rabbitmq.go:534 | what the retry laws take for granted of the JSON library can be had: a text for every value that gives it back and is longer than a string it stands for |
| OutboxSend.SaveAll | rabbitmq/rabbitmq.go:524-546 | succeeds exactly if the business function, every Marshal and every Save do; then rows and messageMap pair the same ids |
| OutboxSend.SendDelayMessageInTransaction | rabbitmq/rabbitmq.go:522-560 | errs exactly if the business function, a Marshal or a Save does, and then leaves the database as it was and starts no publisher; else the publisher gets exactly the saved ids, and after a successful commit each row has its message's JSON text, the creation time of the call and a trigger time a minute later |
| OutboxSend.KeptSevenDays | rabbitmq/rabbitmq.go:88-109 | a purge after such a send leaves its rows, as they are, if and only if it comes within seven days of the call |
| OutboxSend.NotifyAll | rabbitmq/rabbitmq.go:548-557 | the publisher publishes each message of the map under its id with the delay asked for, and nothing else |
| OutboxSend.PairedContents | rabbitmq/rabbitmq.go:533-545 | the map built message by message has exactly the ids as keys, each with its own message |
| OutboxSend.OneEntryPerMessage | rabbitmq/rabbitmq.go:550 | the publisher has one entry per message, even for equal messages |
| OutboxProtocol.StepKeepsInv | rabbitmq/rabbitmq.go:391-457 | every step of transactions, publishers, confirmations, broker, retry, purge and time keeps the outbox invariant |
| OutboxProtocol.NothingCommittedIsLost | rabbitmq/rabbitmq.go:522-560 | in every run each committed message has a live row, or was really acked, or was saved over seven days ago by the clock; a row is marked only after a real ack and vanishes only by that age |
| OutboxProtocol.RetriesAreNeverDelayed | rabbitmq/rabbitmq.go:436-452 | in every run each listed row is republished once and without delay |
| OutboxProtocol.PurgeTakesUndelivered | rabbitmq/rabbitmq.go:88-109 | a run in which the purge removes a committed row that was never acked |
| OutboxProtocol.KeptUntilSentExactlyIfPurgeFindsMarked | rabbitmq/rabbitmq.go:88-109 | every committed message stays listed for retry or is acked, in every run, if and only if the purge never finds an unmarked row past seven days |
| OutboxProtocol.ReturnedMessageCountsAsSent | rabbitmq/rabbitmq.go:680-713 | a run in which a returned message's row is marked after the ack that follows |
| OutboxProtocol.DroppedReturnCountsAsSent | rabbitmq/rabbitmq.go:683-684 | a run in which the return comes between the two registrations and is dropped |
| OutboxProtocol.MarkedWereRoutedExactlyIfReturnsCount | rabbitmq/rabbitmq.go:680-713 | no row is marked for a returned message, in every run, if and only if nothing is returned, or returns come only to a listening waiter whose select takes them first |
| OutboxProtocol.PublishedCommittedExactlyIfCommitsSucceed | orm/gorm.go:107-124 | only committed messages are published, in every run, if and only if commits never fail |
| OutboxProtocol.SendInSteps | rabbitmq/rabbitmq.go:522-560 | a transaction whose work, marshals and saves go through adds, uninterrupted, the rows and publishes the ids that SendDelayMessageInTransaction does |
| OutboxProtocol.FailedSendInSteps | orm/gorm.go:107-117 | one that fails after any number of saves is rolled back: no row, no publisher |
| OutboxProtocol.RetryOneSendsItsPublishes | rabbitmq/rabbitmq.go:425-457 | a retried row starts one confirmation waiter for each of its publishes |
| OutboxProtocol.PageInSteps | rabbitmq/rabbitmq.go:413-418 | a page published to its end starts one waiter for each of its rows, in order, and changes no row |
| OutboxProtocol.OnlyAnAckMarks | rabbitmq/rabbitmq.go:685-712 | a waiter changes a row only by taking an ack, and then only its own |
| OutboxProtocol.EndsUnmarkedWithoutAnAck | rabbitmq/rabbitmq.go:680-712 | a listening waiter can end exactly after a closure, a return or a confirmation, and without an ack marks nothing |
| OutboxProtocol.MarkedRowIsPurged | rabbitmq/rabbitmq.go:88-109 | a run under any rules in which a message is saved, acked, marked and after seven days purged |
| OutboxProtocol.PurgeInSteps | rabbitmq/rabbitmq.go:88-109 | the protocol's purge step keeps what the daily job's method keeps |
| DeadLetters.Settle | rabbitmq/rabbitmq.go:200-222 | no reply exactly with AutoAck; else an ack after nil, a rejection after a panic, and after an error one that requeues exactly if Requeue is set and the delivery was not redelivered |
| DeadLetters.Table.Insert | rabbitmq/dead_msg.go:37-42 | a new row under the next id, or the failure |
| DeadLetters.Table.Upsert | rabbitmq/dead_msg.go:37-42 | overwrites exactly this row, or reports the failure |
| DeadLetters.Table.DeletedByIdUnscoped | rabbitmq/dead_msg.go:49-52 | removes exactly this row, or reports the failure |
| DeadLetters.Table.ListTrigerMsg | rabbitmq/dead_msg.go:54-59 | up to 100 distinct unmarked rows, all of them if there are fewer |
| DeadLetters.Table.OnDelivery | rabbitmq/listener.go:81-100 | clears the flag in every case; saves a row with no attempts, or errs, or panics on a missing header, leaving the table alone |
| DeadLetters.Table.ConsumeDead | rabbitmq/listener.go:65-100 | reply and table for each case: acked exactly with a saved row, lost exactly on the missing header, else requeued |
| DeadLetters.Table.DoRetry | rabbitmq/rabbitmq.go:492-514 | no listener, a panic or a failed write changes nothing; success removes the row; failure writes the copy back with one attempt more, marked at the limit, its message id, queue and body as they were; which of these are errors; and no other row changes |
| DeadLetters.RetryPage | rabbitmq/rabbitmq.go:480-485 | a page is retried in order from the listed copies, up to the first panic, and changes no message |
| DeadLetters.RetryDead | rabbitmq/rabbitmq.go:471-489 | the retry loop's rounds form a run that stops only when no live row is left, and every row that is left has its message as it was |
| DeadLetters.RetryRunKeepsMessages | rabbitmq/rabbitmq.go:492-514 | no retry run changes the message id, queue or body of a row, or adds one |
| DeadRetryEnds.RetryUsesAnAttempt | rabbitmq/rabbitmq.go:492-514 | one listener call that returns and is written lowers the attempts left and spoils no other row |
| DeadRetryEnds.PageUsesItsLength | rabbitmq/rabbitmq.go:480-485 | a page lowers the attempts left by at least its length |
| DeadRetryEnds.RoundsBoundedByAttempts | rabbitmq/rabbitmq.go:472-487 | with a listener for every row, no panic and no failed write no run has more rounds than live rows have attempts left, the limit lowered below their counts or not |
| DeadRetryEnds.RoundsBoundedByRows | rabbitmq/rabbitmq.go:472-487 | so at most as many rounds as there are live rows, times max(1, MaxRetryAttempts) |
| DeadRetryEnds.UnservedRowNeverEnds | rabbitmq/rabbitmq.go:494-497 | a row without a listener is left alone and gives runs of any length |
| DeadRetryEnds.RetryEndsExactlyIfServed | rabbitmq/rabbitmq.go:472-497 | the number of rounds is bounded if and only if there is no live row, or every live row's queue has a listener, listeners return and writes succeed |
| DeadRetryEnds.FutileChangesNothing | rabbitmq/rabbitmq.go:468-513 | a page of panics or failed writes charges no row |
| DeadRetryEnds.FutileNeverEnds | rabbitmq/rabbitmq.go:468-513 | so with either the loop has runs of any length over any live row |
| ConsumerProtocol.StepKeepsInv | rabbitmq/rabbitmq.go:161-224 | every step of broker, workers, dead listener, any number of retry jobs and channel loss keeps the bookkeeping invariant |
| ConsumerProtocol.StepKeepsSolo | rabbitmq/rabbitmq.go:471-489 | with one retry job at a time no listed copy is stale and no removed row comes back |
| ConsumerPlaces.RepliesSettleThemselves | rabbitmq/rabbitmq.go:200-222 | with single replies or one worker a reply settles no other delivery |
| ConsumerPlaces.StepMoves | rabbitmq/rabbitmq.go:193-223 | what is at a place is afterwards where the step takes it, for every place and step |
| ConsumerPlaces.StepComesFrom | rabbitmq/rabbitmq.go:193-223 | without channel loss everything at a place came from exactly one place, or was just routed |
| ConsumerPlaces.ChannelLossRedelivers | rabbitmq/rabbitmq.go:194-199 | a lost channel puts back exactly the deliveries the broker still waits for, marked as redelivered |
| ConsumerPlaces.RetryOneIsRetried | rabbitmq/rabbitmq.go:492-514 | the protocol's retry step does to the table what DoRetry's specification does, and its skip step what it does without a listener |
| ConsumerPlaces.PageGoesOn | rabbitmq/rabbitmq.go:480-485 | a retry job goes on to the next row of its page, unless the call panics, which ends its turn; other pages stay |
| ConsumerPlaces.DeadSaveIsInsert | rabbitmq/listener.go:90-94 | the protocol's save step inserts the row the dead listener inserts |
| ConsumerLaws.AutoAckLoses | rabbitmq/rabbitmq.go:214-216 | a run with AutoAck that loses a message |
| ConsumerLaws.MultipartLoses | rabbitmq/rabbitmq.go:207-211 | a run with Multipart and two workers that loses a message |
| ConsumerLaws.DeadPanicLoses | rabbitmq/rabbitmq.go:201-205 | a run in which a panic of the dead listener loses a message |
| ConsumerLaws.ChannelLossDoubles | rabbitmq/rabbitmq.go:194-199 | a run in which a lost channel has a message both in the table and in the dead queue |
| ConsumerLaws.StaleCopyRestores | rabbitmq/rabbitmq.go:503-513 | a run with two retry jobs in which one removes a row after success and the other writes its stale copy back |
| ConsumerLaws.KeptExactlyIfCareful | rabbitmq/rabbitmq.go:148-224 | every routed message is always somewhere, in every run, if and only if replies are manual and settle one delivery each and the dead listener does not panic, however many retry jobs run |
| ConsumerLaws.InOnePlaceExactlyWithoutChannelLoss | rabbitmq/rabbitmq.go:148-224 | it is always in exactly one place if and only if, besides, no channel is lost and no two retry jobs run at once |
| ConsumerAttempts.StepKeepsHandedOnce | rabbitmq/rabbitmq.go:193-223 | without requeueing a message is at most once in the queue or in the client's hands |
| ConsumerAttempts.StepKeepsWithin | rabbitmq/rabbitmq.go:206-221 | only a delivery or a retry adds to the calls made or to come for a message |
| ConsumerAttempts.ChannelLossRepeats | rabbitmq/rabbitmq.go:194-199 | with channel losses a message's listener is called more than any number of times |
| ConsumerAttempts.ClearedFlagRepeats | rabbitmq/rabbitmq.go:217-218 | so it is if the listener clears Redelivered and keeps failing |
| ConsumerAttempts.UnchargedRetryRepeats | rabbitmq/rabbitmq.go:503-513 | so it is if retried calls panic or their failures are not written |
| ConsumerAttempts.MultipartRequeueRepeats | rabbitmq/rabbitmq.go:217-218 | so it is with Multipart, Requeue and several workers, by failures of other messages |
| ConsumerAttempts.StaleCopyRepeats | rabbitmq/rabbitmq.go:480-511 | so it is with enough retry jobs at once, which charge their calls to copies of one attempt |
| ConsumerAttempts.BoundedExactlyUnderTheRules | rabbitmq/rabbitmq.go:193-223 | calls are at most (2 if Requeue, else 1) + max(1, MaxRetryAttempts) in every run if and only if AutoAck is on, or no channel is lost, writes succeed, retried calls return, no two retry jobs run at once and, with Requeue, listeners keep Redelivered and a reply settles one delivery |
| ConsumerAttempts.BoundIsReached | rabbitmq/rabbitmq.go:193-223 | with every rule kept a message whose listener always fails is called exactly as often as the bound says |
| RequestContext.GiimallContext.Request | common/security/context.go:32-62 | result and new context of the caching getter, every early return included |
| RequestContext.GiimallContext.ShopSettings | common/security/context.go:80-98 | the same for the getter built on it |
| RequestContext.GiimallContext.Answers | common/security/context.go:64-106 | the same for the delegating getters |
| RequestContext.GiimallContext.AnswerAll | common/security/context.go:32-106 | any sequence of getter calls on one context answers like fresh contexts over the same base |
| RequestContext.AmazonContext.LoginUser | common/security/context.go:120-149 | result and new context of the second context type's getter |
| RequestContext.AskingChangesNoAnswer | common/security/context.go:58-96 | one getter call changes no later answer and no other key's value |
| RequestContext.CachedAgreesWithFresh | common/security/context.go:32-106 | after any getter calls the context cannot be told from its base |
| RequestContext.AnswersWhatTheHeaderSays | common/security/context.go:32-106 | over an uncached chain whose header decodes, after any calls, the getters answer the decoded request, its id, its user or nil, and its decoded shop settings or nil |
| RequestContext.AnswersNothing | common/security/context.go:38-61 | with a missing, blank or malformed header they answer nil, and the empty id |
| RequestContext.AnswersWhatIsCached | common/security/context.go:33-36 | over a chain with a cached request they answer from it |
| RequestContext.AnswersTheCachedShop | common/security/context.go:81-84 | cached shop settings are answered as they are |
| RequestContext.AmazonUserIsTheHeaders | common/security/context.go:120-149 | the second type's getter answers the user the header decodes to, and nil in every other case |
| RequestContext.SharedKeyPanics | common/security/context.go:121-123 | the two context types cache under one key, so each panics over a context the other has cached in |
| RequestContext.PanicsExactlyAfterTheOtherType | common/security/context.go:32-149 | after any calls of both types over a fresh chain, a call panics if and only if the first caller that could parse the header was of the other type |
| RequestContext.ParsesOnce | common/security/context.go:57-96 | what a getter has parsed is in the chain afterwards; asked again it answers from there and adds no layer |
| RequestContext.AmazonUserIsCached | common/security/context.go:120-149 | the second getter parses once: asked again it gives the same user, adds no layer and leaves other keys alone |
| RoundRobin.RoundRobinSelector.Selector | jsonrpc/jsonrpc.go:167-181 | fails exactly on an empty list; else the index is in range, advanced or wrapped, and names the chosen service |
| RoundRobin.ChosenEveryN | jsonrpc/jsonrpc.go:173-178 | a service is chosen after a fixed number of others and then every n calls |
| RoundRobin.EachOncePerRound | jsonrpc/jsonrpc.go:173-178 | any n consecutive calls over n services choose each once, from any starting index |
| RoundRobin.CountsDifferByAtMostOne | jsonrpc/jsonrpc.go:173-178 | after any number of calls no two services' counts differ by more than one |
| Errors.FindsTheOutermostBiz | err/biz/biz.go:156-167 | classification returns the code and message of the first biz error of the chain, and none only if there is none |
| Errors.RemoteShowsWhatLocalShows | handler/http_result.go:42-67 | interceptor, wire and ExceptionFail show what local ExceptionFail shows if and only if there is no biz error and the code fits the wire, or its code is not negative, not 2, and a code 0 carries no message |
| Errors.LostCodes | err/biz/biz.go:169-176 | what the client shows instead for codes 2 and 0 |
| Errors.ShowsOutright | handler/http_result.go:42-67 | what is shown of a nil, a status, a chain with a biz error and anything else, in message and code |
| Errors.WrapsOutright | err/biz/biz.go:30-46 | both wrappers have code 500, the cause and its text, which for nil is "<nil>" |
| Errors.StatusPrintsItsCode | err/biz/biz.go:37-42 | the text of a status names its code |
| Errors.CommonWrappersAreTransparent | err/comm/error.go:26-42 | any number of common wrappers changes neither classification nor what is shown locally or remotely |
| Errors.BizWrapperTakesOver | err/biz/biz.go:30-46 | a biz wrapper shows its own 500 with the text of what it wraps |
| StringOrder.LessIsTransitive | reg/nacos/resolver.go:80 | the address order is transitive |
| StringOrder.LessIsTotal | reg/nacos/resolver.go:80 | the address order is total and strict |
| StringOrder.LessIsLexicographic | reg/nacos/resolver.go:80 | smaller is smaller at the first difference, or a proper prefix |
| Endpoints.IncreasingIsUnique | reg/nacos/resolver.go:67 | a strictly increasing list is determined by its members |
| Endpoints.Swap | reg/nacos/resolver.go:81 | exchanges two positions and no others |
| Endpoints.Sort | reg/nacos/resolver.go:67 | sorts in place to a strictly increasing permutation |
| Endpoints.PopulateEndpoints | reg/nacos/resolver.go:58-68 | whatever the iteration order, a strictly increasing list with exactly the input's addresses |
| Endpoints.CallBackHandle | reg/nacos/resolver.go:39-53 | nothing on an error; else one address per instance in order, with the gRPC port if the metadata has one and else the port |
| Endpoints.ListsAreCanonical | reg/nacos/resolver.go:39-74 | two updates give the balancer the same list if and only if they have the same addresses |

## Left out

Library behaviour taken as given:

- Redis: Acquire and Release are single atomic steps on one key. Any tolerance the client library adds to a lease is not modelled.
- The database: a statement or commit happens or fails as a whole; listing queries do not fail (a failed one ends the job's turn like an empty table); ids are fresh.
- The broker: acks, returns, redelivery and dead-lettering are single steps; a reply for a delivery it no longer waits for is ignored, where a real broker may close the channel.
- JSON, URL decoding and the blank test are parameters; numbers are exact and the order of object keys means nothing.
- gRPC: a status with a code of up to 31 bits travels unchanged, any other arrives as some status with such a code, and an error without one arrives as Unknown with its text. Status errors hidden inside other wrappers and context errors, which gRPC classifies itself, are not modelled.
- `sort.Sort` is an insertion sort through the same Less and Swap.

Left out of the protocols:

- LockProtocol covers one key, since keys do not interact. In RedisLock nobody else comes near the key while a call or a wrapped function runs, except the object's own renewers.
- A panic of the callback inside the deferred handler of Task.Run ends the process, and so the run.
- A task's timeout is not a step: it ends the context but changes neither list.
- Request bodies the executor cannot parse, its responses' text, logging and stack traces.
- A panic of the business function inside a transaction, which leaves the transaction open.
- JobTurns follows one process; several processes whose turns meet at one lock are LockProtocol's
  subject, and several running jobs that of OutboxProtocol and ConsumerProtocol. OutboxTable and
  DeadRetryEnds count the rounds of one job alone.
- Opening and closing the client.
- One business queue and one RegisterListener call; more workers than one are one case, "several".
- DeliveryMirror's copying, and what a retried listener reads from it.
- Mutation of cached structs through the pointers the getters return.
- The round-robin service list is a parameter of each call.

Not modelled, as transport, configuration, or only easy members:

- DoPublish and its channel handshake (rabbitmq/rabbitmq.go:661-678), connection dialling and reconnecting.
- Gateway registration, service discovery and subscription, registry heartbeat, log storage, the Amazon middleware.
- IsCommonErrorOrCause, which has the shape of IsBizErrorOrCause; the other constructors of the two error types.
- Collection helpers, paging, option types, null-type converters.
