# Verified model of the Python RS driver's concurrency, paging, caches and codec

This project models, in Dafny, the parts of the driver that are hand-written protocols or
algorithms rather than wrappers, and proves what they promise. Every protocol is a state
machine whose steps are the lock sections of the code and the things threads do between two
sections; its theorems quantify over every run, that is over any number of threads and every
interleaving. Beside each machine stands the code's own form, a class or a method with its
loops, proved to compute the machine's steps.

* **The legacy `ResponseFuture`.** `ResponseTrace` says from a history of events alone what
  should happen; `ResponseShared` has the lock sections as functions, `ResponseInner` as a
  class with reference-counted, copy-on-write callback lists; `ResponseProtocol` is the machine
  of requests, users and the drainer; `ResponseDelivery`, `ResponseTheorems` and
  `ResponseOutcomes` prove that each due callback runs exactly once per page, pages in settle
  order, nothing stranded, and `ResponseHistory` that the history is the one the steps tell.
* **The `DriverFuture` and its wake-up chain.** `StateLock` (the condition variable and its
  waiter count), `Waker` (the slot), `Batcher` (queue, pipe and drain), `GuardedTask` (the
  completion signal), and `DriverProtocol` which puts them together; `DriverOutcome` proves one
  outcome and one call per callback, `DriverResult` which outcome that is, `DriverOrder` the order
  of the calls, `DriverWakeups` that no wake-up is lost, `DriverStranded`
  exactly which steps put that at risk, `DriverRest` that everything comes to rest, and
  `DriverLost` when a future never finishes on its own. `Gil` proves that the GIL and the
  batcher's mutex cannot deadlock.
* **Paging readers.** `PagedRows`, `PagedIterators`, `PagesIterator` and `ResultSet`: what the calls of
  every way of reading a paged result answer is the concatenation of its pages, up to the first error
  (for the legacy set past failed requests too), whatever calls are dropped while they wait; what
  reaches the callers is that exactly if no call was dropped that had taken rows already.
* **Caches.** `FreezeCache` (the two-phase freeze cache), `FieldNames` and `NamedTuples` (the
  namedtuple class cache and its name sanitiser).
* **The CQL value codec.** `Codec` is the reference printer and parser after sections 6 and 7 of
  the CQL binary protocol v4; `CodecFormat` and `CodecReading` say, without it, which bytes stand
  for a value and what bytes are read as, and `CodecErrors` which error a value gives;
  `PyEquality` says when two Python values are the same, `CodecRoundTrip` and `CodecExact` have
  the round trip, and `CodecLoops` the loops.

`dafny verify dfyconfig.toml` checks the whole project.

## Where the code does less than it says

The code is modelled as it is. Where a promise does not hold, a lemma gives an input or a run
that shows it and another says exactly when it does hold.

* A spawned task builds its drop guard inside its body, so a task torn down before its first
  poll never signals (`GuardedTask.TornDownUnpolledIsSilent`); a `ResponseFuture` whose request
  ends so stays pending, and only then (`ResponseTheorems.PendingCanSettleUnlessLost`), and so
  does a `DriverFuture`, until it is closed or thrown into (`DriverLost.LostTaskLeavesPending`,
  `DriverLost.PendingCanResolveUnlessLost`).
* A throw into a loop-driven `DriverFuture` from outside the awaiting task finishes it without a
  wake (`DriverStranded.OutsiderThrowCanStrand`, `DriverStranded.ThrowStrandsExactlyWhen`).
* A second poll of a runtime-driven future by a task still parked on it can send the wake to a
  future nobody waits on (`DriverStranded.RepollCanStrand`, `DriverStranded.CareIsExactlyWhatItTakes`).
* A legacy page whose rows cannot be built counts as received: calling `next` again goes on with
  the page after it (`ResultSet.BadPageIsSkipped`, `ResultSet.AllRowsExactlyWhenPagesBuild`).
* A page belongs to the call that took it. `pages()` fetches on the runtime whether or not the call
  is waited for, so a call dropped or cancelled once its page arrived loses the page: the next call
  answers with the page after it and nothing is raised (`PagesIterator.AnyPagesCanBeLost`). Every row
  comes exactly if no page with rows was lost (`PagesIterator.PagesHaveEveryRowExactlyWhen`,
  `PagesIterator.EveryRowCanComeExactlyWhen`). It is the same with a row and the call that took it
  (`PagedIterators.RowsReachTheirCallersExactlyWhen`).
* A column name with a NUL in it can share its cache key with another result shape
  (`NamedTuples.KeysCollideExactlyOnNul`). Whoever comes second gets the other's class, callers with
  ordinary columns too: it can happen to every caller but one with a single column, or none, without
  a NUL (`NamedTuples.AnothersClassExactlyWhen`). If all other columns are ordinary it happens only to
  a caller whose own are not (`NamedTuples.AnothersClassExactlyOnNul`).
* None is null in a list, set or map but an error in a tuple or UDT, a bool is written for an
  int, an empty tuple reads as the empty value, and a short tuple cannot be read
  (`CodecExact.RoundTrip`).

## Model

| member | source | states |
|---|---|---|
| `Callbacks.Lists.Push` | src/future/callbacks.rs:85-91 | registering appends to the list of its kind and leaves the other list alone |
| `Callbacks.Lists.ForOutcome` | src/future/callbacks.rs:107-115 | a page shares the whole lists if a callback could fire for its outcome; otherwise nothing on them matches that outcome |
| `Pager.Pager.PagingState` | src/core/results.rs:337-349 | there is a paging state exactly when more pages follow |
| `RequestState.Settle` | src/future/response_future/state.rs:65-83 | a failure keeps the last page received, a page replaces it, and the callbacks handed in are the ones that wait |
| `RequestState.TakeUnfired` | src/future/response_future/state.rs:140-147 | taking gives the page's rows and callbacks once, and leaves the last page as it is |
| `RequestState.SwitchToPending` | src/future/response_future/state.rs:88-94 | paging keeps the last page and hands back a page whose callbacks have not run |
| `RequestState.StoreRows` | src/future/response_future/state.rs:111-125 | the first rows stored for the current page are what every later reader gets; rows of a page no longer current are not stored |
| `GuardedTask.SignalledOnce` | src/future/task.rs:18-49 | over every life of a task: at most one signal, and none exactly if it was torn down before its first poll; a task that finished signals its output, one torn down that it was dropped |
| `GuardedTask.TornDownUnpolledIsSilent` | src/future/task.rs:14-36 | the life that breaks the promise of a signal: spawned, then torn down before its first poll |
| `GuardedTask.DropGuard.FirstPoll` | src/future/task.rs:24-29 | the guard comes to hold `on_done` at the first poll only |
| `GuardedTask.DropGuard.Complete` | src/future/task.rs:29-32 | completion takes `on_done` and sends the output, once |
| `GuardedTask.DropGuard.Drop` | src/future/task.rs:43-49 | a drop signals exactly if the guard still holds `on_done` |
| `ResponseInner.CallbackRefs.Push` | src/future/callbacks.rs:85-91 | copy-on-write through counted references: pushing for one holder changes what that holder reads and nothing any other holder reads |
| `ResponseInner.CallbackRefs.Clear` | src/future/callbacks.rs:94-103 | clearing one holder's lists leaves every other holder's as they were |
| `ResponseInner.CallbackRefs.Clone` | src/future/callbacks.rs:107-115 | a page's clone reads what the registry reads, without a copy, and the count stays the number of owners |
| `ResponseInner.CallbackRefs.Take` | src/future/response_future/mod.rs:155-168 | `mem::take`: the new holder gets the registry's lists and the registry starts empty |
| `ResponseInner.CallbackRefs.Drop` | src/future/callbacks.rs:64-68 | dropping a reference takes away that holder's lists only, and the counts stay right |
| `ResponseInner.ResponseInner.constructor` | src/future/response_future/mod.rs:96-105 | a new future is pending, with nothing registered and the token parked |
| `ResponseInner.ResponseInner.Register` | src/future/response_future/mod.rs:225-247 | under the lock: the lists every holder reads afterwards are those of the value-level registration |
| `ResponseInner.ResponseInner.ClearCallbacks` | src/future/response_future/mod.rs:403-410 | clearing reaches the registered callbacks and no page that settled |
| `ResponseInner.ResponseInner.Complete` | src/future/response_future/mod.rs:123-151 | settling, sharing, dropping what is terminal and waking the drainer amount to the value-level completion |
| `ResponseInner.ResponseInner.CompleteDropped` | src/future/response_future/mod.rs:155-176 | a teardown fails a request in flight and hands out the registered lists, and is a no-op otherwise |
| `ResponseInner.ResponseInner.StartFetching` | src/future/response_future/mod.rs:420-437 | refused while in flight or exhausted; else pending, a page with waiting callbacks queued behind the others |
| `ResponseInner.ResponseInner.DrainerNext` | src/future/response_future/drainer.rs:46-77 | the oldest queued page, else the current one, else the token is parked; a page taken is nobody else's any more |
| `ResponseInner.ResponseInner.KeepRows` | src/future/response_future/mod.rs:201-213 | storing built rows keeps the first ones stored |
| `ResponseShared.StartFetching` | src/future/response_future/mod.rs:420-437 | paging starts exactly when settled with more pages to come, and is refused as in flight exactly while pending |
| `ResponseShared.DrainerNext` | src/future/response_future/drainer.rs:73-77 | the token is parked exactly when nothing waits |
| `ResponseTrace.LivePlaced` | src/future/response_future/mod.rs:225-231 | a live callback is registered once and on the list of its kind |
| `ResponseTrace.OwedAtMostOnce` | src/future/response_future/mod.rs:123-147 | no history calls for two runs of a callback for one page |
| `ResponseProtocol.SettlesOnlyPending` | src/future/response_future/state.rs:65-83 | `settle` only ever sees a pending state |
| `ResponseProtocol.EveryRunKeepsBasics` | src/future/response_future/mod.rs:108-176 | in every interleaving: one outstanding request while pending and none otherwise, one drain token, pages settled with callbacks = taken ++ queued ++ current, and each page holds its own list |
| `ResponseDelivery.EveryRunAccounts` | src/future/response_future/drainer.rs:33-77 | conservation: runs due = runs made + passed over + still held by the current page, a queued page or a thread, for every callback and page |
| `ResponseDelivery.EveryRunKeepsPlaces` | src/future/response_future/mod.rs:225-247 | wherever a callback waits it waits on the list of its kind, and calls and passes match kinds |
| `ResponseDelivery.EveryRunKeepsRows` | src/future/response_future/mod.rs:186-213 | rows handed to anybody belong to a settled page, and those of a failed request are its own error |
| `ResponseDelivery.EveryRunKeepsOneList` | src/future/response_future/state.rs:97-125 | rows held for the current page are the first ones its readers got |
| `ResponseDelivery.EveryRunKeepsProgress` | src/future/response_future/drainer.rs:46-69 | the drainer has opened the pages it took and made the calls due for them, up to where it is |
| `ResponseTheorems.PagesAreDeliveredInOrder` | src/future/response_future/drainer.rs:33-77 | the drainer's pages are a prefix of the settle order and its calls a prefix of the calls due, each page with its own list; while anything waits exactly one drainer runs |
| `ResponseTheorems.KindsDecide` | src/future/callbacks.rs:46-61 | a callback runs only for an outcome of its kind and is passed over only for one of the other |
| `ResponseTheorems.DueCallbacksRunExactlyOnce` | src/future/response_future/mod.rs:123-151 | no callback runs twice for a page or without being due; once the threads are done every due one ran or was passed over, and if all outcomes offered are of one kind, ran exactly if it is of that kind |
| `ResponseTheorems.FailureIsOfferedAsError` | src/future/response_future/mod.rs:132-135 | a failed request offers its callbacks nothing but its error |
| `ResponseTheorems.FailuresRunTheErrbacks` | src/future/response_future/mod.rs:123-176 | for a failed request the errbacks due have run once each and the callbacks not at all |
| `ResponseOutcomes.EveryRunKeepsFit` | src/future/response_future/mod.rs:197-213 | if the row factory's outcome is a function of the page, all rows of a received page that any thread, queue or history holds are of that outcome |
| `ResponseOutcomes.ReceivedPagesRunTheirKind` | src/future/response_future/drainer.rs:64-66 | for a received page the callbacks due ran once each and the errbacks not at all if its rows build, and the other way round if they do not |
| `ResponseOutcomes.PagesRunTheirKind` | src/future/response_future/mod.rs:123-151 | for every settled page in every run: a callback has run once, once the threads are done, if and only if it was due and of the page's kind |
| `ResponseHistory.HistoryIsTold` | src/future/response_future/mod.rs:123-176 | over every run: registrations, clears, outcomes and paging in the history are those the steps of the run tell, in their order |
| `ResponseHistory.CallbacksRunAsTold` | src/future/response_future/mod.rs:225-247 | so from the steps alone: a callback has run once for a page, once the threads are done, if and only if it was due and registered as the kind the page's outcome is for |
| `ResponseHistory.RowsAreTheOnesMade` | src/future/response_future/mod.rs:186-213 | over every run: the rows any reader or callback got are ones a thread built for that page, that very object, or the error its request ended with |
| `ResponseHistory.ReadersReadTheCurrentPage` | src/future/response_future/mod.rs:186-196 | whoever asks for rows goes on with the page the last settled request received, and waits while one is in flight |
| `ResponseTheorems.ReadersGetOneList` | src/future/response_future/mod.rs:197-213 | everyone who reads a page while it is current gets the same list object, however many threads build it |
| `ResponseTheorems.QuietIsDone` | src/future/response_future/drainer.rs:46-69 | with no thread at work, every page that settled with callbacks was taken and every due call was made |
| `ResponseTheorems.EveryOwnStepIsProgress` | src/future/response_future/drainer.rs:46-69 | every step a thread at work takes, whatever rows are built, lowers a bound on the work left, so every schedule ends |
| `ResponseTheorems.ThreadsComeToRest` | src/future/response_future/drainer.rs:46-69 | from every reachable state the threads at work come to rest by their own steps, and then nothing is stranded |
| `ResponseTheorems.OneRequestAtATime` | src/future/response_future/mod.rs:420-449 | one request is outstanding exactly while pending; terminal implies nothing registered |
| `ResponseTheorems.TerminalIsAbsorbing` | src/future/response_future/mod.rs:80-86 | settled with no further page stays so under every step |
| `ResponseTheorems.LostRequestNeverSettles` | src/future/task.rs:18-36 | a request torn down before its first poll leaves the future pending, with nothing more settled, in every continuation |
| `ResponseTheorems.PendingCanSettleUnlessLost` | src/future/task.rs:18-36 | some continuation of a run whose future is pending settles another request if and only if no request was lost that way |
| `ResponseTheorems.RequestsCanBeLost` | src/future/task.rs:18-36 | a run in which a request is lost |
| `StateLock.LockStepKeepsInv` | src/future/state_lock.rs:71-117 | the waiter count is the number of threads inside `wait_while`, and a thread blocked on a settled state has a notification to come |
| `StateLock.WaitsEndTruthfully` | src/future/state_lock.rs:79-117 | a wait reports a timeout exactly if the state is still pending when it ends |
| `StateLock.LooksDecide` | src/future/state_lock.rs:86-117 | a thread goes on waiting exactly if the state is pending and its time is not up, at the first look and at every later one |
| `StateLock.WaiterCount.Begin` | src/future/state_lock.rs:86-96 | a thread counts itself exactly if it is going to block |
| `StateLock.WaiterCount.LookAgain` | src/future/state_lock.rs:96-117 | on every way out of the wait the thread is uncounted |
| `StateLockRuns.NoWaiterIsLost` | src/future/state_lock.rs:71-117 | over every interleaving of waits, timeouts, spurious wake-ups and transitions: no blocked thread is forgotten |
| `Batcher.PushKeepsInv` | src/future/asyncio/batcher.rs:273-291 | a push keeps: non-empty queue implies armed, armed implies the loop is notified or about to be, FIFO, one notifier between takes |
| `Batcher.NotifyKeepsInv` | src/future/asyncio/batcher.rs:142-163 | every way a notification can go keeps that, the full pipe and the closed loop included |
| `Batcher.LoopStepKeepsInv` | src/future/asyncio/batcher.rs:310-329 | acknowledging before taking keeps it at every point a push can fall in between |
| `Batcher.BatcherState.Push` | src/future/asyncio/batcher.rs:273-284 | the queue grows by the future and the first push of a batch is told so |
| `Batcher.BatcherState.Take` | src/future/asyncio/batcher.rs:312-320 | the whole queue is taken and disarmed in one section |
| `Batcher.BatcherState.Drain` | src/future/asyncio/batcher.rs:310-329 | the futures set are those of the queue that are not done when their turn comes, in queue order |
| `Batcher.UndoneAreSetOnce` | src/future/asyncio/batcher.rs:79-86 | they are exactly the queued futures that were not done, each once |
| `Batcher.UndoneAreSetInOrder` | src/future/asyncio/batcher.rs:322-328 | they are set in the order of the queue |
| `BatcherRuns.QueueIsAlwaysOnItsWay` | src/future/asyncio/batcher.rs:226-329 | the invariant over every run of any number of pushers and the loop |
| `BatcherRuns.IdleLoopHasWokenAll` | src/future/asyncio/batcher.rs:273-329 | once pushers and loop are idle on a live loop, the futures woken are the futures pushed, in push order |
| `Waker.TakeParked` | src/future/asyncio/waker.rs:128-136 | a wake is remembered or delivered, never both and never lost |
| `Waker.Park` | src/future/asyncio/waker.rs:84-111 | parking takes a recorded wake instead of sleeping, and reuses a future that is still undone |
| `Waker.AsyncioWaker.Reset` | src/future/asyncio/waker.rs:77-81 | a reset forgets a wake and a parked future |
| `Waker.AsyncioWaker.YieldAsyncioFuture` | src/future/asyncio/waker.rs:84-111 | the slot after parking and the future to sleep on, if any |
| `Waker.AsyncioWaker.Wake` | src/future/asyncio/waker.rs:113-136 | the slot after a wake and the future to deliver, if any |
| `DriverProtocol.Next` | src/future/mod.rs:209-531 | every step leaves the waiters' view of the state right, and nobody outside the poll can see the placeholder state, so the `unreachable!` arms are dead |
| `DriverOutcome.StepsMoveForward` | src/future/mod.rs:215-399 | states only move forward, `Ready` is absorbing, and a converted outcome never changes |
| `DriverOutcome.CompletedOnce` | src/future/mod.rs:215-248 | over every run exactly one completer wins |
| `DriverOutcome.LateCompletionIsIgnored` | src/future/mod.rs:226-238 | a task that completes or is dropped after the future finished changes nothing |
| `DriverOutcome.EverybodySeesOneOutcome` | src/future/mod.rs:105-119 | every reader and every callback sees the same outcome, although it is converted lazily by whoever comes first |
| `DriverOutcome.EveryCallbackIsInOnePlace` | src/future/mod.rs:452-480 | each registered callback is queued, with a firing thread, called or passed over: exactly one of these |
| `DriverOutcome.EveryCallFits` | src/future/callbacks.rs:176-201 | success callbacks are called for a success only, error callbacks for an error only; passed over are only those that are for the other outcome |
| `DriverOutcome.CallbacksAreCalledOnce` | src/future/mod.rs:252-275 | under any race of completion, drop, close, cancel, throw and registration, in the end a success callback was called once if the future succeeded and not at all if not, an error callback the other way round, a done callback once |
| `DriverResult.EveryRunHasWhatWasGiven` | src/future/mod.rs:215-248 | over every run the future is finished exactly if a step ended it, with what the first such step gave: the task's output, the poll's outcome, that the task was dropped, or the error of `close` or `throw` |
| `DriverResult.EverybodySeesTheOutcome` | src/future/mod.rs:105-119 | every reader and every callback, called or passed over, got the outcome the steps of the run say, converted if the task gave it |
| `DriverResult.ReadersGetTheOutcome` | src/future/mod.rs:316-423 | a poll, `result()` or a read after a wait gives that outcome if the future is finished; otherwise a poll parks or polls on, and `result()` starts the future on the runtime and waits |
| `DriverResult.CallbacksGetTheOutcome` | src/future/callbacks.rs:176-201 | from the steps alone: once finished and quiet, callbacks of the kind they were registered as ran once or not at all as the outcome decides |
| `DriverOrder.CallbacksAreCalledInOrder` | src/future/callbacks.rs:192-201 | over every run the callbacks registered before the future finished are called in the order they were registered, whoever finishes it |
| `DriverWakeups.EveryRunCoversWaiters` | src/future/mod.rs:226-274 | a thread blocked in `result()` on a finished future has a notification to come, from a thread that still has it to send |
| `DriverStranded.ThrowStrandsExactlyWhen` | src/future/mod.rs:487-531 | from any state a careful run reaches, a throw from outside strands the awaiting task if and only if it finishes a loop-driven future under a task parked on an undone future that no wake is coming for, on a live loop |
| `DriverStranded.CarelessPollCanStrand` | src/future/mod.rs:316-339 | from every state in which a task parked on a runtime-driven future with no wake coming polls again, ordinary steps (close, wake, park) strand it |
| `DriverStranded.CareIsExactlyWhatItTakes` | src/future/mod.rs:316-531 | after any careful run, whatever the next step is: some careful continuation strands the task if and only if that step is one of those two |
| `DriverWakeups.EveryRunKeepsWake` | src/future/asyncio/mod.rs:131-168 | the wake-up invariant over every run that avoids those two steps: enough wakes are with the threads for whatever the slot holds |
| `DriverWakeups.NoLostWakeup` | src/future/asyncio/waker.rs:77-143 | finished and parked on an undone future implies a wake to come, a delivery in hand, or the future in the queue of a notified batcher or in the drain |
| `DriverWakeups.NobodyIsLeftWaiting` | src/future/mod.rs:226-274 | once all is at rest on a live loop, no task is parked and no thread blocked on a finished future |
| `DriverRest.EveryOwnStepIsProgress` | src/future/mod.rs:252-275 | once the future is finished every step of a thread or of the loop's drain lowers a bound on the work left, so every schedule of them ends |
| `DriverRest.AllComesToRest` | src/future/asyncio/batcher.rs:273-329 | from every careful run whose future is finished on a live loop, threads and loop come to rest by their own steps, with nobody left parked, blocked or stranded |
| `DriverRest.TaskGetsTheOutcome` | src/future/mod.rs:316-339 | from every careful run whose future is finished on a live loop, a task that awaits it and was not cancelled comes to get its outcome, by steps of threads, loop and task alone |
| `DriverLost.LostTaskLeavesPending` | src/future/mod.rs:209-248 | however a run whose task was torn down before its first poll goes on, the future is finished if and only if it was closed, cancelled or thrown into since |
| `DriverLost.PendingCanResolveUnlessLost` | src/future/mod.rs:197-219 | a future on the runtime can finish without that if and only if its task was not torn down before its first poll |
| `DriverLost.TasksCanBeLost` | src/future/task.rs:18-36 | a run in which the task of a future is lost so |
| `DriverWakeups.WaitersOnlyOnTheRuntime` | src/future/mod.rs:342-353 | a loop-driven future has no waiters, which is why its transitions need not notify; a wait that did not time out ended on a finished future |
| `DriverStranded.OutsiderThrowCanStrand` | src/future/mod.rs:495-507 | a run in which a throw from outside strands the parked task |
| `DriverStranded.RepollCanStrand` | src/future/mod.rs:316-339 | a run in which a second poll strands the task on a future nobody will set |
| `Gil.ProgramsAreDisciplined` | src/future/asyncio/batcher.rs:89-97 | whatever a thread calls, nothing happens between taking and releasing `state`, the GIL is not waited for there |
| `Gil.EveryRunIsOrderly` | src/future/asyncio/batcher.rs:273-329 | over every interleaving each lock has one holder at most and every thread sticks to that discipline |
| `Gil.HolderOfStateNeverWaits` | src/future/asyncio/batcher.rs:90-93 | the holder of `state` can always go on, and gives it back next |
| `Gil.NeverStuck` | src/future/asyncio/batcher.rs:273-329 | with any number of attached pushes, detached pushes and drains, while a thread is not through some thread can go on |
| `Gil.EveryRunEnds` | src/future/asyncio/batcher.rs:273-329 | no livelock either: every run ends, and then all programs are over and both locks free |
| `Gil.AttachedDrainDeadlocks` | python/tests/test_deadlocks.py:284-296 | with `lock_py_attached` in the drain, a run that ends with every thread waiting for another |
| `PagedRows.AskTakesTheHead` | src/core/results.rs:236-266 | the next row is the head of the concatenated pages and the tail stays; a failed or dropped call loses nothing and reports the first request that failed; a call whose requests arrive does answer |
| `PagedRows.QueryPager.FetchNextPage` | src/core/results.rs:352-380 | the pager moves on exactly when a page arrived, by one page |
| `PagedRows.QueryPager.Exhaust` | src/core/results.rs:323-325 | no pages to come |
| `PagedRows.RowsIterator.Update` | src/deserialize/rows.rs:74-82 | switches to the next page's rows, or reports the row factory's error and stays |
| `PagedRows.RowsIterator.Next` | src/deserialize/rows.rs:84-93 | hands out the rows of the page one by one, none for a response without rows |
| `PagedRows.NextRowWithPaging` | src/core/results.rs:236-266 | the loop computes the reference reader's answer and leaves its state, in every case |
| `PagedRows.GoodIsThePrefix` | src/core/results.rs:175-185 | draining a page collects the rows before its first bad one, all of them if there is none |
| `PagedRows.DrainPage` | src/core/results.rs:175-185 | appends exactly those rows and reports that error |
| `PagedRows.All` | src/core/results.rs:123-158 | the loop over pages computes the reference answer |
| `PagedRows.AllIsTheWholeResult` | src/core/results.rs:123-158 | all rows at once are the concatenation of the pages, or the first thing wrong with it; one or the other if every request arrives |
| `PagedRows.FirstRow` | src/core/results.rs:107-120 | the first row is the head of the concatenation, none if that is empty |
| `PagedIterators.AsyncRowsIterator.constructor` | src/results/iterators.rs:57-67 | starts with the first page and the pages after it |
| `PagedIterators.AsyncRowsIterator.Finish` | src/results/iterators.rs:120-126 | nothing is left to iterate |
| `PagedIterators.AsyncRowsIterator.ANext` | src/results/iterators.rs:72-103 | the fast path and the slow path give the same answer and state; an error ends the iteration |
| `PagedIterators.RowsComeInOrder` | src/results/iterators.rs:72-103 | for any calls, dropped at the lock or at a fetch: rows handed out ++ rows to come = the whole result, as long as none failed |
| `PagedIterators.TheEndIsAfterEveryRow` | src/results/iterators.rs:88-97 | a call that says the iteration ended says every row was handed out |
| `PagedIterators.NothingComesAfterAnError` | src/results/iterators.rs:120-126 | after an error no row and no further error comes |
| `PagedIterators.AnErrorEndsTheRows` | src/results/iterators.rs:72-126 | an error comes after a prefix of the rows, a bad row's in its place |
| `PagedIterators.PatienceGetsEveryRow` | src/core/results.rs:236-266 | if nothing fails, more patient calls than rows reach the end, however many other calls are dropped |
| `PagedIterators.RowsReachTheirCallersExactlyWhen` | src/results/iterators.rs:72-103 | once a call said the iteration ended, the rows that reached their callers are the whole result if and only if no call was dropped that had a row already |
| `PagesIterator.PagesComeInOrder` | src/results/iterators.rs:158-200 | over any calls, dropped or overtaking each other: pages out ++ pages to come = the pages; each page out is on its way, handed over, lost with its call, or has failed |
| `PagesIterator.PagesHaveEveryRowExactlyWhen` | src/results/iterators.rs:158-231 | without an error, once a call said there are no more pages, the rows Python got for the pages are the whole result if and only if no page lost or still on its way has rows |
| `PagesIterator.PagesHaveEveryRow` | src/results/iterators.rs:158-231 | so they are if every call that took a page was waited for |
| `PagesIterator.AnyPagesCanBeLost` | src/results/iterators.rs:158-200 | for every result and every choice of its pages, a run without an error that says there are no more pages and has lost just those, with their rows |
| `PagesIterator.EveryRowCanComeExactlyWhen` | src/results/iterators.rs:158-231 | from any point of any run some continuation hands over every row if and only if there was no error, every page binds, and no page with rows was lost |
| `PagesIterator.NoPageComesAfterAnError` | src/results/iterators.rs:169-197 | in every continuation after the first error no page is fetched, and only pages on their way before it can be handed over |
| `PagesIterator.FetchAnswersTruthfully` | src/results/iterators.rs:182-196 | a call answers with the page after those out, with the error of its request, or that there are no more pages |
| `PagesIterator.ReadersAgree` | src/core/results.rs:107-158 | iterating to the end and `all()` give the same rows and `first_row()` the first of them; the pages give them too, if and only if no page lost or on its way has rows |
| `PagesIterator.AsyncPagesIterator.constructor` | src/results/iterators.rs:141-154 | starts with the first page and those the pager has to come |
| `PagesIterator.AsyncPagesIterator.BeginNext` | src/results/iterators.rs:158-164 | the first page goes out in a finished future, or the call goes on to fetch |
| `PagesIterator.AsyncPagesIterator.FetchPage` | src/results/iterators.rs:166-197 | the slow path computes the reference answer and state |
| `PagesIterator.AsyncPagesIterator.HandToPython` | src/results/iterators.rs:222-231 | a page handed over has its rows, or its row factory error ends the iteration |
| `ResultSet.PagedRequest.FetchPage` | src/legacy/result_set.rs:121-125 | a failed request leaves the pages to come; a page that arrives is used up whether or not its rows can be built |
| `ResultSet.ResultSet.TakeStep` | src/legacy/result_set.rs:87-118 | one step yields the next row of the page, or says to fetch or to end, exactly when the page is read |
| `ResultSet.ResultSet.NextRow` | src/legacy/result_set.rs:73-84 | computes the reference reader's answer for whatever the requests do, keeping the position on a failure |
| `ResultSet.ResultSet.DrainFromStart` | src/legacy/result_set.rs:128-143 | `all()` is the current page from its start followed by every later page, and list mode is returned as it is |
| `ResultSet.ResultSet.EnterListMode` | src/legacy/result_set.rs:146-168 | a fresh set holds the whole concatenation or reports the first thing wrong with it, one that was iterated refuses and stays as it was |
| `ResultSet.ResultSet.FetchNextPage` | src/legacy/result_set.rs:231-244 | the current page becomes the next one and the position its start; a failed request changes nothing, and a page that cannot be built is used up while rows and mode stay |
| `ResultSet.AllIsNextAgain` | src/legacy/result_set.rs:138-142 | collecting everything is asking for the next row again and again |
| `ResultSet.RetriesLoseNothing` | src/legacy/result_set.rs:73-84 | for every pattern of failed requests and any number of `next` calls: rows seen ++ rows to come = the whole result |
| `ResultSet.CallingOnGetsToTheEnd` | src/legacy/result_set.rs:73-118 | more calls than rows and failed requests reach the end, and then the whole result was seen |
| `ResultSet.AllRowsExactlyWhenPagesBuild` | src/future/response_future/state.rs:65-83 | for every network and any number of `next` calls that reach the end, the rows yielded are all good rows of the result if and only if every page that cannot be built has none |
| `ResultSet.BadPageIsSkipped` | src/legacy/result_set.rs:121-125 | a middle page with a bad row: after the error the next call goes on with the page after it |
| `FreezeCache.StepOnlyAdds` | src/cache.rs:128-281 | every lock section keeps every binding, and none changes a frozen cache |
| `FreezeCache.EveryRunKeepsInv` | src/cache.rs:128-281 | over every interleaving: whatever was returned still holds, and the view shows the map |
| `FreezeCache.EverybodyGetsTheSame` | src/cache.rs:128-177 | any two calls that got a value for a key got the same object, all views are one object, and it agrees with every lookup |
| `FreezeCache.BindingsSurvive` | src/cache.rs:228-281 | over any stretch of a run bindings survive, the freeze included, and nothing is added after it |
| `FreezeCache.FreezeFillsIn` | src/cache.rs:249-281 | a freeze fails exactly if the dictionary cannot be filled, and then changes nothing; a successful one adds the first value given for every missing key and nothing else |
| `FreezeCache.EveryValueHasItsOrigin` | src/cache.rs:128-281 | over every run each value bound was computed by a call for that key, which returned it, or given for that key in the entries of a freeze |
| `FreezeCache.FoundHasItsOrigin` | src/cache.rs:139-177 | and so was every value returned |
| `FreezeCache.OnlyCallGetsWhatItComputed` | src/cache.rs:154-177 | the only call for a key on a cache that is not frozen returns, and leaves bound, what it computed |
| `FreezeCache.NothingIsComputedTwice` | src/cache.rs:137-157 | in every continuation, a call made for a key after it was bound computes nothing, nor does any call after the freeze |
| `FreezeCache.Cache.constructor` | src/cache.rs:86-92 | a new cache is active and empty |
| `FreezeCache.Cache.ReadValue` | src/cache.rs:139-152 | the first section finds the value, says it is missing for good, or has it computed |
| `FreezeCache.Cache.WriteValue` | src/cache.rs:161-176 | the second section keeps a value stored meanwhile and adds nothing once frozen |
| `FreezeCache.Cache.WriteView` | src/cache.rs:252-280 | both loops: the entries fill in what is missing, the dictionary equals the map, and an entry that does not fit leaves the cache as it was |
| `FieldNames.CharactersAre` | src/deserialize/row_factory.rs:472-478 | letters and digits are those of ASCII |
| `FieldNames.CleanNameIsCleaned` | src/deserialize/row_factory.rs:472-478 | a cleaned name is the column from its first letter or digit to its last letter, digit or `_`, with `_` for whatever else is in between, and empty without any letter or digit |
| `FieldNames.WantedExactly` | src/deserialize/row_factory.rs:424-429 | a column wants its cleaned name if that starts with a letter and is no reserved word, and `field_<position>_` in decimal otherwise |
| `FieldNames.CleanedNamesAreKept` | src/deserialize/row_factory.rs:418-452 | columns whose cleaned names are usable and different get exactly those |
| `FieldNames.AppliedIsApplied` | src/deserialize/row_factory.rs:441-442 | the column `[applied]` gets the field `applied` |
| `FieldNames.WantedIsFieldName` | src/deserialize/row_factory.rs:472-489 | a cleaned name that passes, or a positional one, starts with a letter, has only letters, digits and `_`, and is no reserved word |
| `FieldNames.FieldNamesAreUsable` | src/deserialize/row_factory.rs:418-452 | the names are pairwise different, ones a namedtuple takes, and never reserved words (no reserved word that starts with a letter ends in `_`) |
| `FieldNames.FieldNamesAreUnique` | src/deserialize/row_factory.rs:424-439 | first come first served with as few `_` as needed determines the names: there is only one such list |
| `FieldNames.UsableNamesAreKept` | src/deserialize/row_factory.rs:424-439 | columns with usable, different names keep them |
| `FieldNames.MakeUnique` | src/deserialize/row_factory.rs:431-436 | the tie loop ends and gives the first name not seen |
| `FieldNames.ComputeFieldNames` | src/deserialize/row_factory.rs:418-452 | one name per column, each the cleaned name or position it wants with as few `_` as make it new, and the warning is given exactly if some column did not get its cleaned name |
| `NamedTuples.ComputeKey` | src/deserialize/row_factory.rs:386-390 | the loop builds the NUL-terminated key |
| `NamedTuples.NamesOfKey` | src/deserialize/row_factory.rs:386-390 | the key gives back the names it was built from, if they have no NUL |
| `NamedTuples.KeyIsInjective` | src/deserialize/row_factory.rs:386-390 | two shapes without a NUL share a key only if they are the same |
| `NamedTuples.KeysCollideExactlyOnNul` | src/deserialize/row_factory.rs:386-390 | a shape shares its key with another that has no NUL if and only if one of its names has a NUL |
| `NamedTuples.NulGetsAnothersClass` | src/deserialize/row_factory.rs:385-413 | for every column list with a NUL, a run in which its caller gets the class of another shape, with other fields |
| `NamedTuples.OrdinaryCallerGetsAnothersClass` | src/deserialize/row_factory.rs:385-413 | for every list of two columns or more, ordinary or not, a run in which its caller gets the class of another shape, with fewer fields |
| `NamedTuples.AnothersClassExactlyWhen` | src/deserialize/row_factory.rs:385-413 | whatever others call for, some run hands a caller another shape's class if and only if one of its columns has a NUL or there are two of them or more |
| `NamedTuples.AnothersClassExactlyOnNul` | src/deserialize/row_factory.rs:385-413 | among ordinary calls, a call can get another shape's class if and only if its own columns have a NUL |
| `NamedTuples.EveryRunKeepsInv` | src/deserialize/row_factory.rs:385-413 | over every interleaving of any lookups, clears and racing inserts: each class cached or returned fits a shape that was called for and has the key, 512 entries at most |
| `NamedTuples.CallersGetTheirFields` | src/deserialize/row_factory.rs:385-413 | a caller gets a class with the fields computing anew for its own columns would give, as long as no call is for another shape with the same key |
| `NamedTuples.OrdinaryCallersGetTheirFields` | src/deserialize/row_factory.rs:385-413 | and so does every caller if no column has a NUL |
| `NamedTuples.OneClassForAShape` | src/deserialize/row_factory.rs:378-413 | while fewer than 512 keys were asked for and the lock was not poisoned, all calls for a shape get one class object, however their lookups and inserts race |
| `NamedTuples.ClassCache.Get` | src/deserialize/row_factory.rs:392-396 | the read section finds the class cached under the columns' key |
| `NamedTuples.ClassCache.Make` | src/deserialize/row_factory.rs:398-402 | the class made has the field names of the columns |
| `NamedTuples.ClassCache.Put` | src/deserialize/row_factory.rs:404-412 | the write section empties a full cache first and keeps a class stored meanwhile |
| `BigEndian.IntRoundTrip` | src/serialize/value.rs:262-277 | two's complement, big-endian, for every width and every integer that fits |
| `BigEndian.BytesRoundTrip` | src/deserialize/value.rs:319-357 | and back: every byte string of that width is the encoding of what it decodes to |
| `CodecFormat.IntFormat` | src/serialize/value.rs:140-152 | the bytes of a tinyint, smallint, int, bigint or counter: 1, 2, 4 or 8 of them, in two's complement, the first counting most; written if and only if the integer is in that range |
| `CodecFormat.CellFormat` | src/serialize/value.rs:354-366 | a cell is its length in four bytes and the contents, or -1 in four bytes for None |
| `CodecFormat.ContentsFormat` | src/serialize/value.rs:62-130 | for every type and value exactly the bytes the format says are written: counts and cells of lists, sets and maps, key before value, tuples, and UDT fields in the order of the type |
| `CodecFormat.ContentsAreWrittenWhen` | src/serialize/value.rs:368-403 | for every type exactly which values can be written, and in how many bytes |
| `CodecErrors.ErrorsAreTheFirst` | src/serialize/value.rs:262-277 | writing fails with an error if and only if it is that of the first thing that cannot be written |
| `CodecReading.ReadsExactly` | src/deserialize/value.rs:292-538 | for every type, every cell a server may send and every value: the cell reads as the value if and only if it stands for it, null, empty and malformed cells included |
| `CodecReading.SetIsExactly` | src/deserialize/value.rs:221-244 | a set is read if and only if its elements can be hashed, and has each of them once |
| `CodecReading.DictIsExactly` | src/deserialize/value.rs:168-215 | a dict is read if and only if its keys can be hashed, and has each of them once with the last value given for it |
| `CodecReading.HashableExactly` | src/deserialize/value.rs:168-244 | a value can be hashed if and only if no list, set or dict is in it |
| `CodecRoundTrip.ContentsReadBack` | src/deserialize/value.rs:292-538 | for every type and value written: parsing the bytes gives the byte-free reading of the value, the unreadable cases included |
| `CodecRoundTrip.CellReadsBack` | src/serialize/value.rs:354-366 | the same for a cell, null or not, with anything behind it, which is left untouched |
| `CodecRoundTrip.TupleReadsBack` | src/serialize/value.rs:744-771 | a full tuple reads element by element; a shorter one is accepted when writing and cannot be read |
| `CodecExact.ReadIsCanonical` | src/deserialize/value.rs:292-538 | whatever was written, what is read for it is canonical |
| `CodecExact.ReadsBackExactlyWhen` | src/deserialize/value.rs:107-244 | what is read is the same value if and only if it has no None for a collection, no bool for an int, no empty or short tuple, and UDT dicts have just the fields, in any order |
| `CodecExact.RoundTrip` | src/serialize/value.rs:62-130 | parse(serialize(v)) is the same value as v, and the rest of the frame is untouched, if and only if v is canonical for its type, over all nestings |
| `CodecExact.NoneReadsAsEmpty` | src/deserialize/value.rs:145-154 | None written for a list, set or map reads as an empty one |
| `CodecExact.WritingIsInjective` | src/serialize/value.rs:62-130 | canonical values of a type with the same bytes are the same value |
| `CodecLoops.WriteValue` | src/serialize/value.rs:62-130 | the dispatch writes the reference bytes or reports the reference error |
| `CodecLoops.WriteCell` | src/serialize/value.rs:354-366 | None is null, anything else is framed |
| `CodecLoops.WriteSequence` | src/serialize/value.rs:368-403 | the loop over elements, its count and size limits, and the first error |
| `CodecLoops.WriteMap` | src/serialize/value.rs:534-583 | the loop over items, key before value, and the first error |
| `CodecLoops.WriteUdt` | src/serialize/value.rs:682-712 | the loop over the type's fields; a missing or None field is an error |
| `CodecLoops.WriteTuple` | src/serialize/value.rs:743-771 | the loop over the elements there are; too many or None is an error |
| `CodecLoops.ReadValue` | src/deserialize/value.rs:292-538 | the dispatch reads the reference value, an empty slice and null included |
| `CodecLoops.ReadList` | src/deserialize/value.rs:107-161 | the loop reads as many cells as counted, or fails with the first that cannot be read |
| `CodecLoops.ReadSet` | src/deserialize/value.rs:221-244 | the same, adding each to a set: doubles collapse, what is not hashable fails |
| `CodecLoops.ReadMap` | src/deserialize/value.rs:168-215 | the same for pairs, a later value replacing an earlier one of its key |
| `CodecLoops.ReadUdt` | src/deserialize/value.rs:485-512 | fields in order, those missing at the end null |
| `CodecLoops.ReadTuple` | src/deserialize/value.rs:515-538 | one cell per element type, all of them needed |

## Left out

- Clocks, randomness, the network and the runtime's scheduler are parameters: the outcome of each request, which thread steps next, when a timeout expires, what a row factory or a conversion returns.
- Python object conversion, exception classes, attribute caching, registration of modules and `repr` code: no invariant of their own.
- Load balancing, retry, routing, timestamp, host filter, address translation and authenticator policies: wrappers over the Rust driver.
- The session builder, TLS, execution profiles and enums: setters and single-branch reading.
- CQL date, time, timestamp and duration arithmetic, and vectors, varint, decimal, float, inet and uuid in the codec: they rest on library encodings that are not part of this model.
- Ascii columns and UTF-8 validation: a text is its bytes, so a text that is not valid UTF-8 is not modelled.
- Mutex poisoning and real panics: runs are panic-free, except that a poisoned namedtuple cache is modelled.
- The weak-reference registry of batchers and the reuse of loop addresses: CPython object lifetimes.
- Two tasks awaiting one `DriverFuture`: the slot holds one parked future, and the wake-up theorems assume one task.
- The order between a callback run inline by registration and the drainer while another thread pages: the code does not promise one.
- The tracing ids a request collects, and column metadata: plain reads.
- Rows and values are numbers that stand for Python objects; two rows are the same object exactly if the numbers are equal.
- Values of different types are different values here: that Python calls True and 1 equal is not modelled.
- ResultSet.PagedRequest.FetchPage: the `ResponseFuture` under a `ResultSet` is used by one thread, because the legacy driver does not support paging concurrently with `result()`.
- DriverResult.EverybodySeesTheOutcome: that converting a task's output gives what a function of the output says is a hypothesis about the conversion.
- ResponseHistory.CallbacksRunAsTold: has the same hypothesis about the row factory as the next one.
- ResponseOutcomes.PagesRunTheirKind: that the row factory's outcome depends on the page alone is a hypothesis about user code.
- FieldNames.FieldNamesAreUsable: that no Python reserved word starts with a letter and ends in `_` is a hypothesis about the interpreter.
