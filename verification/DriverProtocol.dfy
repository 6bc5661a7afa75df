/** A `DriverFuture` and every thread that touches it: the task that awaits it on the event
    loop, the task spawned on the runtime, the threads that close it, register callbacks or
    block on its result, the wakers, and the drain of the loop's completion queue. A step is
    one critical section, or one thing a thread does between two of them. */
module DriverProtocol {
  import opened Common
  import opened GuardedTask
  import opened StateLock
  import opened Waker
  import opened Batcher

  datatype Outcome = Success(value: nat) | Failure(error: nat)

  /** The outcome of a finished future, converted to Python on first access. */
  datatype ReadyResult = Unconverted(raw: nat) | Converted(outcome: Outcome)

  /** The result as a Python value, cached; `conversion` is what converting it would give. */
  function GetOrConvert(r: ReadyResult, conversion: Outcome): (result: (ReadyResult, Outcome))
    ensures result.0 == Converted(result.1)
    ensures r.Converted? ==> result.0 == r
  {
    match r
    case Unconverted(_) => (Converted(conversion), conversion)
    case Converted(outcome) => (r, outcome)
  }

  datatype FutureState =
    /** Driven by the event loop; `polled` says whether its waker exists. */
    | PendingAsyncio(polled: bool)
    /** Spawned on the runtime. */
    | PendingTokio(callbacks: seq<nat>)
    | Ready(result: ReadyResult)
    /** The placeholder a transition leaves while it runs. */
    | Panicked

  function PhaseOf(state: FutureState): Phase {
    match state
    case PendingTokio(_) => Pending
    case Ready(_) => Settled
    case _ => NotStarted
  }

  datatype CallbackKind = OnSuccess | OnError | OnDone

  predicate Fires(kind: CallbackKind, outcome: Outcome) {
    kind == OnDone || (kind == OnSuccess && outcome.Success?) || (kind == OnError && outcome.Failure?)
  }

  /** What a thread still has to do, with no lock held. */
  datatype Action =
    /** Convert the result, then fire. */
    | FireReady(cbs: seq<nat>)
    | Fire(cbs: seq<nat>, outcome: Outcome)
    | Wake
    /** Hand a parked future to the batcher. */
    | Deliver(future: nat)
    /** Get the drain onto the loop. */
    | NotifyLoop
    | NotifyWaiters(notification: nat)

  /** The task awaiting the future. */
  datatype Awaiter =
    | Runnable
    /** Polling the inner future, with the state lock held. */
    | PollingInner
    /** Saw the future running on the runtime; released the lock; about to park. */
    | ToPark
    | Suspended(future: nat)
    | Over

  datatype Call = Call(cb: nat, outcome: Outcome)

  datatype System = System(
    state: FutureState,
    lock: Lock,
    task: Option<Task>,
    slot: Slot,
    awaiter: Awaiter,
    /** The `asyncio.Future`s that are done, and those the loop cancelled. */
    done: set<nat>,
    cancelled: set<nat>,
    /** The `asyncio.Future`s created so far. */
    futures: nat,
    batcher: Queue,
    workers: seq<seq<Action>>,
    // What happened so far.
    kinds: seq<CallbackKind>,
    calls: seq<Call>,
    passed: seq<Call>,
    seen: seq<Outcome>,
    completions: nat)

  const INITIAL := System(PendingAsyncio(false), NewLock(NotStarted), None, Idle, Runnable, {}, {}, 0,
                          EMPTY_QUEUE, [], [], [], [], [], 0)

  const DROPPED: nat := 0

  datatype Step =
    /** `__next__` by the awaiting task. */
    | Poll(conversion: Outcome)
    | ParkNow
    | InnerPending
    | InnerReady(outcome: Outcome)
    /** `throw` by the awaiting task, or by anybody else. */
    | Throw(error: nat)
    | OutsiderThrows(error: nat)
    /** The parked future is done, so the loop runs the task again. */
    | Resume
    /** The loop cancels the parked future. */
    | CancelParked
    /** `close` or `cancel`. */
    | Close(error: nat)
    | StartOnTokio
    | AddCallback(kind: CallbackKind, conversion: Outcome)
    /** `result()`: reads the outcome or starts waiting for it. */
    | AskResult(conversion: Outcome)
    /** A reader of a finished future, such as `result()` after its wait. */
    | ReadOutcome(conversion: Outcome)
    /** A step of a thread blocked in `result()`. */
    | WaiterMoves(lockStep: LockStep)
    | PollTask
    | ResolveTask(raw: nat)
    | DropTask
    /** The next thing a thread does. */
    | Work(worker: nat, conversion: Outcome, notice: Notice)
    /** The inner future wakes the coroutine, rightly or not. */
    | StrayWake
    /** Another future is delivered to the same batcher. */
    | ForeignPush
    | OnLoop(loopStep: LoopStep)

  ghost predicate LockFree(s: System) {
    !s.awaiter.PollingInner?
  }

  ghost predicate CanStep(s: System, step: Step) {
    match step
    case Poll(_) => s.awaiter.Runnable? || s.awaiter.Suspended?
    case ParkNow => s.awaiter.ToPark?
    case InnerPending => s.awaiter.PollingInner?
    case InnerReady(_) => s.awaiter.PollingInner?
    case Throw(_) => s.awaiter.Runnable? || (s.awaiter.Suspended? && s.awaiter.future in s.done)
    case Resume => s.awaiter.Suspended? && s.awaiter.future in s.done && s.awaiter.future !in s.cancelled
    case CancelParked => s.awaiter.Suspended? && s.awaiter.future !in s.done
    case ReadOutcome(_) => LockFree(s) && s.state.Ready?
    case WaiterMoves(l) => LockFree(s) && (l.Enter? || l.WakeSpuriously? || l.LookAgain?) && CanLockStep(s.lock, l)
    case PollTask => s.task == Some(Unpolled)
    case ResolveTask(_) => LockFree(s) && s.task == Some(Polled)
    case DropTask => LockFree(s) && (s.task == Some(Unpolled) || s.task == Some(Polled))
    case Work(w, _, n) =>
      && w < |s.workers| && s.workers[w] != []
      && (s.workers[w][0].FireReady? ==> LockFree(s))
      && (s.workers[w][0].NotifyLoop? ==> CanNotify(s.batcher, n))
    case StrayWake => true
    case ForeignPush => true
    case OnLoop(l) => CanLoopStep(s.batcher, l)
    case _ => LockFree(s)
  }

  /** The transition to `Ready`, from a state waiters may be blocked on; the thread that made
      it is left with `todo`. */
  function Complete(s: System, result: ReadyResult, todo: seq<Action>): System
    requires PhaseOf(s.state) == Pending && s.lock.phase == Pending
  {
    s.(state := Ready(result), lock := LockNext(s.lock, Settle), workers := s.workers + [todo],
       completions := s.completions + 1)
  }

  /** The transition to `Ready` from a state driven by the loop, which notifies nobody. */
  function CompleteQuietly(s: System, outcome: Outcome): System
    requires s.lock.phase == NotStarted
  {
    s.(state := Ready(Converted(outcome)), lock := LockNext(s.lock, SettleQuietly), completions := s.completions + 1)
  }

  /** Reading a finished future. */
  function Read(s: System, conversion: Outcome): (r: (System, Outcome))
    requires s.state.Ready?
  {
    var (result, outcome) := GetOrConvert(s.state.result, conversion);
    (s.(state := Ready(result), seen := s.seen + [outcome]), outcome)
  }

  /** `ensure_started`. */
  function EnsureStarted(s: System): System
    requires s.lock.phase == PhaseOf(s.state)
  {
    if s.state.PendingAsyncio? then
      s.(state := PendingTokio([]), task := Some(Unpolled), lock := LockNext(s.lock, Start))
    else s
  }

  function DoPoll(s: System, conversion: Outcome): System {
    match s.state
    case Ready(_) => Read(s, conversion).0.(awaiter := Over)
    case PendingTokio(_) => s.(awaiter := ToPark)
    case PendingAsyncio(_) => s.(state := Panicked, slot := Idle, awaiter := PollingInner)
    case Panicked => s.(awaiter := Over)
  }

  /** `yield_asyncio_future`. */
  function DoPark(s: System): System {
    var (slot, parked) := Park(s.slot, s.done, s.futures);
    s.(slot := slot, awaiter := if parked.Some? then Suspended(parked.value) else Runnable,
       futures := if parked == Some(s.futures) then s.futures + 1 else s.futures)
  }

  function DoThrow(s: System, error: nat): System
    requires s.lock.phase == PhaseOf(s.state)
  {
    match s.state
    case PendingAsyncio(_) => CompleteQuietly(s, Failure(error))
    case PendingTokio(cbs) =>
      Complete(s, Converted(Failure(error)),
               [Wake, NotifyWaiters(|s.lock.notifications|), Fire(cbs, Failure(error))])
    case _ => s
  }

  function DoClose(s: System, error: nat): System
    requires s.lock.phase == PhaseOf(s.state)
  {
    match s.state
    case PendingAsyncio(polled) =>
      var closed := CompleteQuietly(s, Failure(error));
      if polled then closed.(workers := s.workers + [[Wake]]) else closed
    case PendingTokio(cbs) =>
      Complete(s, Converted(Failure(error)),
               [NotifyWaiters(|s.lock.notifications|), Wake, Fire(cbs, Failure(error))])
    case _ => s
  }

  /** `resolve_on_tokio`. */
  function DoResolve(s: System, result: ReadyResult): System
    requires s.lock.phase == PhaseOf(s.state)
  {
    match s.state
    case PendingTokio(cbs) =>
      Complete(s, result, (if cbs == [] then [] else [FireReady(cbs)]) + [Wake, NotifyWaiters(|s.lock.notifications|)])
    case _ => s
  }

  function DoAddCallback(s: System, kind: CallbackKind, conversion: Outcome): System
    requires s.lock.phase == PhaseOf(s.state)
  {
    var cb := |s.kinds|;
    if s.state.Ready? then
      var (read, outcome) := Read(s, conversion);
      read.(kinds := s.kinds + [kind], workers := s.workers + [[Fire([cb], outcome)]])
    else if s.state.Panicked? then s
    else
      var started := EnsureStarted(s);
      started.(kinds := s.kinds + [kind], state := PendingTokio(started.state.callbacks + [cb]))
  }

  function DoAskResult(s: System, conversion: Outcome): System
    requires s.lock.phase == PhaseOf(s.state)
  {
    if s.state.Ready? then Read(s, conversion).0
    else if s.state.Panicked? then s
    else
      var started := EnsureStarted(s);
      started.(lock := LockNext(started.lock, Arrive))
  }

  /** One call, or one callback passed over because it is for the other outcome. */
  function DoFire(s: System, w: nat): System
    requires w < |s.workers| && s.workers[w] != [] && s.workers[w][0].Fire?
  {
    var Fire(cbs, outcome) := s.workers[w][0];
    var rest := s.workers[w][1..];
    if cbs == [] then s.(workers := s.workers[w := rest])
    else
      var moved := s.(workers := s.workers[w := [Fire(cbs[1..], outcome)] + rest]);
      if cbs[0] < |s.kinds| && Fires(s.kinds[cbs[0]], outcome) then moved.(calls := s.calls + [Call(cbs[0], outcome)])
      else moved.(passed := s.passed + [Call(cbs[0], outcome)])
  }

  function DoWork(s: System, w: nat, conversion: Outcome, n: Notice): System
    requires w < |s.workers| && s.workers[w] != []
  {
    var rest := s.workers[w][1..];
    match s.workers[w][0]
    case FireReady(cbs) =>
      if s.state.Ready? then
        var (read, outcome) := Read(s, conversion);
        read.(workers := s.workers[w := [Fire(cbs, outcome)] + rest])
      else s
    case Fire(_, _) => DoFire(s, w)
    case Wake =>
      var (slot, parked) := TakeParked(s.slot);
      s.(slot := slot, workers := s.workers[w := (if parked.Some? then [Deliver(parked.value)] else []) + rest])
    case Deliver(f) =>
      var (b, first) := Push(s.batcher, f);
      s.(batcher := b, workers := s.workers[w := (if first then [NotifyLoop] else []) + rest])
    case NotifyLoop => s.(batcher := Batcher.Notify(s.batcher, n), workers := s.workers[w := rest])
    case NotifyWaiters(k) =>
      s.(lock := if CanNotifyWaiters(s.lock, k) then LockNext(s.lock, LockStep.Notify(k)) else s.lock,
         workers := s.workers[w := rest])
  }

  predicate CanNotifyWaiters(l: Lock, k: nat) {
    k < |l.notifications| && l.notifications[k].Owed?
  }

  function DoLoopStep(s: System, l: LoopStep): System
    requires CanLoopStep(s.batcher, l)
  {
    var released := if l.ReleaseNext? && s.batcher.drain.left != [] then {s.batcher.drain.left[0]} else {};
    s.(batcher := LoopNext(s.batcher, l), done := s.done + released)
  }

  /** The waiters' view of the state is right, and the placeholder is there exactly while
      the lock is held for a poll: nobody else can see it. */
  ghost predicate Sound(s: System) {
    && s.lock.phase == PhaseOf(s.state)
    && (s.state.Panicked? <==> s.awaiter.PollingInner?)
  }

  function Next(s: System, step: Step): (s': System)
    requires CanStep(s, step) && Sound(s)
    ensures Sound(s')
  {
    match step
    case Poll(conversion) => DoPoll(s, conversion)
    case ParkNow => DoPark(s)
    case InnerPending => DoPark(s.(state := PendingAsyncio(true)))
    case InnerReady(outcome) =>
      var ready := CompleteQuietly(s, outcome);
      ready.(awaiter := Over, seen := s.seen + [outcome])
    case Throw(error) => DoThrow(s, error).(awaiter := Over)
    case OutsiderThrows(error) => DoThrow(s, error)
    case Resume => s.(awaiter := Runnable)
    case CancelParked => s.(done := s.done + {s.awaiter.future}, cancelled := s.cancelled + {s.awaiter.future})
    case Close(error) => DoClose(s, error)
    case StartOnTokio => EnsureStarted(s)
    case AddCallback(kind, conversion) => DoAddCallback(s, kind, conversion)
    case AskResult(conversion) => DoAskResult(s, conversion)
    case ReadOutcome(conversion) => Read(s, conversion).0
    case WaiterMoves(l) => s.(lock := LockNext(s.lock, l))
    case PollTask => s.(task := Some(Polled))
    case ResolveTask(raw) => DoResolve(s.(task := Some(Signalled)), Unconverted(raw))
    case DropTask =>
      if s.task == Some(Unpolled) then s.(task := Some(Lost))
      else DoResolve(s.(task := Some(Signalled)), Converted(Failure(DROPPED)))
    case Work(w, conversion, n) => DoWork(s, w, conversion, n)
    case StrayWake => s.(workers := s.workers + [[Wake]])
    case ForeignPush => s.(workers := s.workers + [[Deliver(s.futures)]], futures := s.futures + 1)
    case OnLoop(l) => DoLoopStep(s, l)
  }

  datatype Run = Begun | Then(before: Run, step: Step)

  ghost predicate Possible(r: Run)
    decreases r, 0
  {
    r.Then? ==> Possible(r.before) && CanStep(StateOf(r.before), r.step)
  }

  ghost function StateOf(r: Run): (s: System)
    requires Possible(r)
    ensures Sound(s)
    decreases r, 1
  {
    match r
    case Begun => INITIAL
    case Then(before, step) => Next(StateOf(before), step)
  }

  // ---------------------------------------------------------------------------- the threads' lists

  /** Some thread still has to do `a`. */
  ghost predicate Todo(workers: seq<seq<Action>>, a: Action) {
    exists w :: 0 <= w < |workers| && a in workers[w]
  }

  lemma TodoKept(workers: seq<seq<Action>>, w: nat, todo: seq<Action>, a: Action)
    requires w < |workers| && workers[w] != []
    requires forall x :: x in workers[w][1..] ==> x in todo
    requires Todo(workers, a) && (a != workers[w][0] || a in todo)
    ensures Todo(workers[w := todo], a)
  {
    var v :| 0 <= v < |workers| && a in workers[v];
    if v == w {
      assert workers[w] == [workers[w][0]] + workers[w][1..];
      assert a in workers[w := todo][w];
    } else {
      assert a in workers[w := todo][v];
    }
  }

  lemma TodoAdded(workers: seq<seq<Action>>, todo: seq<Action>, a: Action)
    requires Todo(workers, a) || a in todo
    ensures Todo(workers + [todo], a)
  {
    if a in todo {
      assert a in (workers + [todo])[|workers|];
    } else {
      var v :| 0 <= v < |workers| && a in workers[v];
      assert a in (workers + [todo])[v];
    }
  }
}
