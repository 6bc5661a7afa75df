/** Nobody who waits for a `DriverFuture` is forgotten: not the task awaiting it on the event
    loop, although poll-then-park and settle-then-wake are each made of separate steps, and
    not the threads blocked on its result. */
module DriverWakeups {
  import opened Common
  import opened GuardedTask
  import opened StateLock
  import opened Waker
  import opened Batcher
  import opened DriverProtocol

  // -------------------------------------------------------------------------- threads in result()

  /** The lock's own invariant, a thread for every notification owed, and no wait that ended
      early. */
  ghost predicate WaitersCovered(s: System) {
    && LockInv(s.lock)
    && (forall k :: 0 <= k < |s.lock.notifications| && s.lock.notifications[k].Owed? ==>
        Todo(s.workers, NotifyWaiters(k)))
    && (forall t :: 0 <= t < |s.lock.threads| && s.lock.threads[t] == Left(false) ==> s.state.Ready?)
  }

  lemma AddedThreadKeepsWaiters(s: System, todo: seq<Action>)
    requires WaitersCovered(s)
    ensures WaitersCovered(s.(workers := s.workers + [todo]))
  {
    forall k | 0 <= k < |s.lock.notifications| && s.lock.notifications[k].Owed?
      ensures Todo(s.workers + [todo], NotifyWaiters(k))
    {
      TodoAdded(s.workers, todo, NotifyWaiters(k));
    }
  }

  lemma CompleteKeepsWaiters(s: System, result: ReadyResult, todo: seq<Action>)
    requires PhaseOf(s.state) == Pending && s.lock.phase == Pending && WaitersCovered(s)
    requires NotifyWaiters(|s.lock.notifications|) in todo
    ensures WaitersCovered(Complete(s, result, todo))
  {
    AddedThreadKeepsWaiters(s, todo);
    LockStepKeepsInv(s.lock, Settle);
    TodoAdded(s.workers, todo, NotifyWaiters(|s.lock.notifications|));
  }

  lemma QuietCompletionKeepsWaiters(s: System, outcome: Outcome)
    requires s.lock.phase == NotStarted && WaitersCovered(s)
    ensures WaitersCovered(CompleteQuietly(s, outcome))
  {
    LockStepKeepsInv(s.lock, SettleQuietly);
  }

  lemma StartKeepsWaiters(s: System)
    requires s.lock.phase == PhaseOf(s.state) && WaitersCovered(s)
    ensures WaitersCovered(EnsureStarted(s))
  {
    if s.state.PendingAsyncio? {
      LockStepKeepsInv(s.lock, LockStep.Start);
    }
  }

  lemma ThreadMoveKeepsTodo(s: System, w: nat, todo: seq<Action>)
    requires w < |s.workers| && s.workers[w] != []
    requires forall x :: x in s.workers[w][1..] ==> x in todo
    ensures forall a :: Todo(s.workers, a) && (a != s.workers[w][0] || a in todo) ==> Todo(s.workers[w := todo], a)
  {
    forall a | Todo(s.workers, a) && (a != s.workers[w][0] || a in todo) ensures Todo(s.workers[w := todo], a) {
      TodoKept(s.workers, w, todo, a);
    }
  }

  lemma WorkKeepsWaiters(s: System, w: nat, c: Outcome, n: Notice)
    requires w < |s.workers| && s.workers[w] != [] && Sound(s) && WaitersCovered(s)
    ensures WaitersCovered(DoWork(s, w, c, n))
  {
    var s' := DoWork(s, w, c, n);
    if s' != s {
      ThreadMoveKeepsTodo(s, w, s'.workers[w]);
      assert s'.workers == s.workers[w := s'.workers[w]];
      if s.workers[w][0].NotifyWaiters? && CanNotifyWaiters(s.lock, s.workers[w][0].notification) {
        LockStepKeepsInv(s.lock, LockStep.Notify(s.workers[w][0].notification));
      }
    }
  }

  lemma StepKeepsWaiters(s: System, step: Step)
    requires CanStep(s, step) && Sound(s) && WaitersCovered(s)
    ensures WaitersCovered(Next(s, step))
  {
    match step
    case InnerReady(o) => QuietCompletionKeepsWaiters(s, o);
    case Throw(e) => ThrowKeepsWaiters(s, e);
    case OutsiderThrows(e) => ThrowKeepsWaiters(s, e);
    case Close(e) => CloseKeepsWaiters(s, e);
    case StartOnTokio => StartKeepsWaiters(s);
    case AddCallback(k, c) =>
      StartKeepsWaiters(s);
      if s.state.Ready? { AddedThreadKeepsWaiters(Read(s, c).0, [Fire([|s.kinds|], Read(s, c).1)]); }
    case AskResult(c) =>
      StartKeepsWaiters(s);
      if !s.state.Ready? { LockStepKeepsInv(EnsureStarted(s).lock, Arrive); }
    case WaiterMoves(l) => LockStepKeepsInv(s.lock, l);
    case ResolveTask(raw) => ResolveKeepsWaiters(s.(task := Some(Signalled)), Unconverted(raw));
    case DropTask =>
      if s.task != Some(Unpolled) { ResolveKeepsWaiters(s.(task := Some(Signalled)), Converted(Failure(DROPPED))); }
    case Work(w, c, n) => WorkKeepsWaiters(s, w, c, n);
    case StrayWake => AddedThreadKeepsWaiters(s, [Wake]);
    case ForeignPush => AddedThreadKeepsWaiters(s, [Deliver(s.futures)]);
    case _ =>
  }

  lemma ThrowKeepsWaiters(s: System, e: nat)
    requires s.lock.phase == PhaseOf(s.state) && WaitersCovered(s)
    ensures WaitersCovered(DoThrow(s, e))
  {
    if s.state.PendingAsyncio? {
      QuietCompletionKeepsWaiters(s, Failure(e));
    } else if s.state.PendingTokio? {
      CompleteKeepsWaiters(s, Converted(Failure(e)), DoThrow(s, e).workers[|s.workers|]);
    }
  }

  lemma CloseKeepsWaiters(s: System, e: nat)
    requires s.lock.phase == PhaseOf(s.state) && WaitersCovered(s)
    ensures WaitersCovered(DoClose(s, e))
  {
    if s.state.PendingAsyncio? {
      QuietCompletionKeepsWaiters(s, Failure(e));
      AddedThreadKeepsWaiters(CompleteQuietly(s, Failure(e)), [Wake]);
    } else if s.state.PendingTokio? {
      CompleteKeepsWaiters(s, Converted(Failure(e)), DoClose(s, e).workers[|s.workers|]);
    }
  }

  lemma ResolveKeepsWaiters(s: System, result: ReadyResult)
    requires s.lock.phase == PhaseOf(s.state) && WaitersCovered(s)
    ensures WaitersCovered(DoResolve(s, result))
  {
    if s.state.PendingTokio? {
      CompleteKeepsWaiters(s, result, DoResolve(s, result).workers[|s.workers|]);
    }
  }

  lemma {:induction false} EveryRunCoversWaiters(r: Run)
    requires Possible(r)
    ensures WaitersCovered(StateOf(r))
  {
    if r.Then? {
      EveryRunCoversWaiters(r.before);
      StepKeepsWaiters(StateOf(r.before), r.step);
    }
  }

  // ----------------------------------------------------------------------- the task on the loop

  /** Numbers of futures created are below the counter, and a future is done only by a
      cancellation or because it went through the batcher. */
  ghost predicate Ids(s: System) {
    && (s.slot.Parked? ==> s.slot.future < s.futures)
    && (s.awaiter.Suspended? ==> s.awaiter.future < s.futures)
    && (forall f :: f in s.batcher.pushed ==> f < s.futures)
    && (forall f: nat :: Todo(s.workers, Deliver(f)) ==> f < s.futures)
    && (forall f :: f in s.done ==> f < s.futures && (f in s.cancelled || f in s.batcher.pushed))
  }

  /** The slot is filled only while the task waits on the future in it or is about to park,
      and that future is on its way nowhere. */
  ghost predicate SlotFits(s: System) {
    && (s.awaiter.Runnable? || s.awaiter.PollingInner? ==> !s.slot.Parked?)
    && (s.slot.Parked? && s.awaiter.Suspended? ==> s.awaiter.future == s.slot.future)
    && (s.slot.Parked? ==> s.slot.future !in s.batcher.pushed && !Todo(s.workers, Deliver(s.slot.future)))
    && (s.awaiter.ToPark? ==> s.state.PendingTokio? || s.state.Ready?)
    && (s.awaiter.Suspended? ==> s.state != PendingAsyncio(false))
  }

  ghost predicate OnItsWay(s: System, f: nat) {
    Todo(s.workers, Deliver(f)) || f in s.batcher.queue || f in s.batcher.InDrain() || f in s.batcher.discarded
  }

  /** A task suspended on an undone future is in the slot, or its future is on its way. */
  ghost predicate Covered(s: System) {
    s.awaiter.Suspended? && s.awaiter.future !in s.done ==>
      s.slot == Parked(s.awaiter.future) || OnItsWay(s, s.awaiter.future)
  }

  ghost function WakesIn(todo: seq<Action>): int {
    multiset(todo)[Wake]
  }

  /** The wakes still with the threads. */
  ghost function Wakes(workers: seq<seq<Action>>): int {
    Sum(workers, WakesIn)
  }

  /** How many wakes it takes until a task about to park finds one waiting: the first empties
      a slot that is filled, the next leaves its mark. */
  ghost function Needed(slot: Slot): int {
    match slot
    case Woken => 0
    case Idle => 1
    case Parked(_) => 2
  }

  /** On a loop that lives: once the future is finished, a task parked on an undone future has
      a wake to come, and one about to park, because it did not see the future finished, will
      find one waiting; before that the completer's own wake is still to be counted. */
  ghost predicate WakeToCome(s: System) {
    s.batcher.alive ==>
      && (s.state.Ready? && s.slot.Parked? && s.awaiter.Suspended? && s.awaiter.future !in s.done ==>
          Wakes(s.workers) >= 1)
      && (s.state.Ready? && s.awaiter.ToPark? ==> Wakes(s.workers) >= Needed(s.slot))
      && (s.state.PendingTokio? && s.awaiter.ToPark? ==> Wakes(s.workers) + 1 >= Needed(s.slot))
  }

  ghost predicate WakeInv(s: System) {
    Ids(s) && SlotFits(s) && Covered(s) && WakeToCome(s) && QueueInv(s.batcher, Todo(s.workers, NotifyLoop))
  }

  lemma WakesAreTodo(workers: seq<seq<Action>>)
    ensures Wakes(workers) >= 0
    ensures Wakes(workers) >= 1 <==> Todo(workers, Wake)
  {
    SumNonNegative(workers, WakesIn);
    if Wakes(workers) >= 1 {
      var w := SumWitness(workers, WakesIn);
      assert Wake in workers[w];
    }
    if w :| 0 <= w < |workers| && Wake in workers[w] {
      SumAtLeast(workers, w, WakesIn);
    }
  }

  /** The wakes after thread `w` moved on to `todo`. */
  lemma WakesMoved(workers: seq<seq<Action>>, w: nat, todo: seq<Action>)
    requires w < |workers| && workers[w] != []
    ensures Wakes(workers[w := todo]) == Wakes(workers) - WakesIn(workers[w]) + WakesIn(todo)
    ensures WakesIn(workers[w]) == (if workers[w][0].Wake? then 1 else 0) + WakesIn(workers[w][1..])
  {
    SumUpdate(workers, w, todo, WakesIn);
    assert workers[w] == [workers[w][0]] + workers[w][1..];
  }

  /** A new thread that delivers nothing. */
  lemma AddedThreadKeepsWake(s: System, todo: seq<Action>)
    requires WakeInv(s) && forall f: nat :: Deliver(f) !in todo
    ensures WakeInv(s.(workers := s.workers + [todo]))
    ensures Wakes(s.workers + [todo]) == Wakes(s.workers) + WakesIn(todo)
  {
    var workers := s.workers + [todo];
    SumAppend(s.workers, todo, WakesIn);
    forall a | Todo(s.workers, a) || a in todo ensures Todo(workers, a) {
      TodoAdded(s.workers, todo, a);
    }
    forall f: nat | Todo(workers, Deliver(f)) ensures Todo(s.workers, Deliver(f)) {
      var v :| 0 <= v < |workers| && Deliver(f) in workers[v];
      assert v < |s.workers| && Deliver(f) in s.workers[v];
    }
  }

  /** A thread's list changes without touching the slot or the batcher. */
  lemma MovedThreadKeepsWake(s: System, w: nat, todo: seq<Action>)
    requires WakeInv(s) && w < |s.workers| && s.workers[w] != []
    requires forall x :: x in s.workers[w][1..] ==> x in todo
    requires forall f: nat :: Deliver(f) in todo ==> Deliver(f) in s.workers[w]
    requires !s.workers[w][0].Wake? && !s.workers[w][0].Deliver? && !s.workers[w][0].NotifyLoop?
    requires WakesIn(todo) == WakesIn(s.workers[w][1..])
    ensures WakeInv(s.(workers := s.workers[w := todo]))
  {
    ThreadMoveKeepsTodo(s, w, todo);
    DeliversBefore(s, w, todo, {});
    WakesMoved(s.workers, w, todo);
  }

  /** Nothing is delivered after thread `w` moved on that was not to be before, but `extra`. */
  lemma DeliversBefore(s: System, w: nat, todo: seq<Action>, extra: set<nat>)
    requires w < |s.workers|
    requires forall f: nat :: Deliver(f) in todo ==> Deliver(f) in s.workers[w] || f in extra
    ensures forall f: nat :: Todo(s.workers[w := todo], Deliver(f)) ==> Todo(s.workers, Deliver(f)) || f in extra
  {
    forall f: nat | Todo(s.workers[w := todo], Deliver(f)) ensures Todo(s.workers, Deliver(f)) || f in extra {
      var v :| 0 <= v < |s.workers| && Deliver(f) in s.workers[w := todo][v];
      if v == w {
        assert Deliver(f) in todo;
        assert Deliver(f) in s.workers[w] || f in extra;
      } else {
        assert Deliver(f) in s.workers[v];
      }
    }
  }

  lemma WakeKeepsWake(s: System, w: nat)
    requires w < |s.workers| && s.workers[w] != [] && s.workers[w][0].Wake? && WakeInv(s)
    ensures WakeInv(DoWork(s, w, Failure(0), Written))
  {
    var s' := DoWork(s, w, Failure(0), Written);
    var todo := s'.workers[w];
    ThreadMoveKeepsTodo(s, w, todo);
    WakesMoved(s.workers, w, todo);
    WakesAreTodo(s'.workers);
    if s.slot.Parked? {
      var f := s.slot.future;
      DeliversBefore(s, w, todo, {f});
      assert Deliver(f) in s'.workers[w];
      assert Todo(s'.workers, Deliver(f));
    } else {
      DeliversBefore(s, w, todo, {});
    }
  }

  lemma DeliverKeepsWake(s: System, w: nat)
    requires w < |s.workers| && s.workers[w] != [] && s.workers[w][0].Deliver? && WakeInv(s)
    ensures WakeInv(DoWork(s, w, Failure(0), Written))
  {
    var f, s' := s.workers[w][0].future, DoWork(s, w, Failure(0), Written);
    var todo := s'.workers[w];
    assert Deliver(f) in s.workers[w];
    assert Todo(s.workers, Deliver(f));
    ThreadMoveKeepsTodo(s, w, todo);
    WakesMoved(s.workers, w, todo);
    DeliversBefore(s, w, todo, {});
    PushKeepsInv(s.batcher, f, Todo(s.workers, NotifyLoop));
    if Push(s.batcher, f).1 {
      assert NotifyLoop in s'.workers[w];
      assert Todo(s'.workers, NotifyLoop);
    }
    assert f in s'.batcher.queue;
    if s.awaiter.Suspended? && OnItsWay(s, s.awaiter.future) {
      assert OnItsWay(s', s.awaiter.future);
    }
  }

  lemma NotifyLoopKeepsWake(s: System, w: nat, n: Notice)
    requires w < |s.workers| && s.workers[w] != [] && s.workers[w][0].NotifyLoop? && WakeInv(s)
    requires CanNotify(s.batcher, n)
    ensures WakeInv(DoWork(s, w, Failure(0), n))
  {
    var s' := DoWork(s, w, Failure(0), n);
    assert NotifyLoop in s.workers[w];
    ThreadMoveKeepsTodo(s, w, s'.workers[w]);
    WakesMoved(s.workers, w, s'.workers[w]);
    DeliversBefore(s, w, s'.workers[w], {});
    NotifyKeepsInv(s.batcher, n, Todo(s'.workers, NotifyLoop));
  }

  /** What was called, or passed over, wakes nobody. */
  lemma CallsDoNotWake(s: System, calls: seq<Call>, passed: seq<Call>)
    requires WakeInv(s)
    ensures WakeInv(s.(calls := calls, passed := passed))
  {
  }

  lemma FireKeepsWake(s: System, w: nat)
    requires w < |s.workers| && s.workers[w] != [] && s.workers[w][0].Fire? && WakeInv(s)
    ensures WakeInv(DoFire(s, w))
  {
    var Fire(cbs, outcome) := s.workers[w][0];
    var rest, s' := s.workers[w][1..], DoFire(s, w);
    var todo := if cbs == [] then rest else [Fire(cbs[1..], outcome)] + rest;
    MovedThreadKeepsWake(s, w, todo);
    CallsDoNotWake(s.(workers := s.workers[w := todo]), s'.calls, s'.passed);
  }

  lemma FireReadyKeepsWake(s: System, w: nat, c: Outcome, n: Notice)
    requires w < |s.workers| && s.workers[w] != [] && s.workers[w][0].FireReady? && WakeInv(s)
    ensures WakeInv(DoWork(s, w, c, n))
  {
    if s.state.Ready? {
      MovedThreadKeepsWake(s, w, [Fire(s.workers[w][0].cbs, Read(s, c).1)] + s.workers[w][1..]);
    }
  }

  lemma WorkKeepsWake(s: System, w: nat, c: Outcome, n: Notice)
    requires CanStep(s, Work(w, c, n)) && WakeInv(s)
    ensures WakeInv(DoWork(s, w, c, n))
  {
    match s.workers[w][0]
    case Wake => WakeKeepsWake(s, w);
    case Deliver(_) => DeliverKeepsWake(s, w);
    case NotifyLoop => NotifyLoopKeepsWake(s, w, n);
    case NotifyWaiters(_) => MovedThreadKeepsWake(s, w, s.workers[w][1..]);
    case Fire(_, _) => FireKeepsWake(s, w);
    case FireReady(_) => FireReadyKeepsWake(s, w, c, n);
  }

  /** The future finishes, and the thread that finished it has the wake still to do. */
  lemma CompleteKeepsWake(s: System, result: ReadyResult, todo: seq<Action>)
    requires PhaseOf(s.state) == Pending && s.lock.phase == Pending && WakeInv(s)
    requires WakesIn(todo) == 1 && forall f: nat :: Deliver(f) !in todo
    ensures WakeInv(Complete(s, result, todo))
  {
    AddedThreadKeepsWake(s, todo);
    WakesAreTodo(s.workers);
  }

  /** What to leave alone while a task that no wake is coming for is parked on a loop that
      lives: polling a future on the runtime a second time, since its completer can then empty
      the slot before the task parks again; and throwing into a future driven by the loop,
      which finishes it without a wake. */
  ghost predicate Careless(s: System, step: Step) {
    && s.batcher.alive && s.awaiter.Suspended? && s.slot.Parked? && !Todo(s.workers, Wake)
    && (|| (step.Poll? && s.state.PendingTokio?)
        || (step.OutsiderThrows? && s.state.PendingAsyncio? && s.awaiter.future !in s.done))
  }

  lemma CarefulThrowKeepsWake(s: System, e: nat)
    requires s.lock.phase == PhaseOf(s.state) && WakeInv(s) && !Careless(s, OutsiderThrows(e))
    ensures WakeInv(DoThrow(s, e))
  {
    WakesAreTodo(s.workers);
    if s.state.PendingTokio? {
      CompleteKeepsWake(s, Converted(Failure(e)), DoThrow(s, e).workers[|s.workers|]);
    }
  }

  lemma CloseKeepsWake(s: System, e: nat)
    requires s.lock.phase == PhaseOf(s.state) && WakeInv(s)
    ensures WakeInv(DoClose(s, e))
  {
    if s.state.PendingAsyncio? {
      AddedThreadKeepsWake(s, [Wake]);
      WakesAreTodo(s.workers);
    } else if s.state.PendingTokio? {
      CompleteKeepsWake(s, Converted(Failure(e)), DoClose(s, e).workers[|s.workers|]);
    }
  }

  lemma ResolveKeepsWake(s: System, result: ReadyResult)
    requires s.lock.phase == PhaseOf(s.state) && WakeInv(s)
    ensures WakeInv(DoResolve(s, result))
  {
    if s.state.PendingTokio? {
      CompleteKeepsWake(s, result, DoResolve(s, result).workers[|s.workers|]);
    }
  }

  lemma ForeignPushKeepsWake(s: System)
    requires WakeInv(s)
    ensures WakeInv(s.(workers := s.workers + [[Deliver(s.futures)]], futures := s.futures + 1))
  {
    var workers := s.workers + [[Deliver(s.futures)]];
    SumAppend(s.workers, [Deliver(s.futures)], WakesIn);
    forall a | Todo(s.workers, a) ensures Todo(workers, a) {
      TodoAdded(s.workers, [Deliver(s.futures)], a);
    }
    forall f: nat | Todo(workers, Deliver(f)) ensures Todo(s.workers, Deliver(f)) || f == s.futures {
      var v :| 0 <= v < |workers| && Deliver(f) in workers[v];
      if v < |s.workers| {
        assert Deliver(f) in s.workers[v];
      }
    }
    if Todo(workers, NotifyLoop) {
      var v :| 0 <= v < |workers| && NotifyLoop in workers[v];
      assert NotifyLoop in s.workers[v];
    }
  }

  lemma LoopStepKeepsWake(s: System, l: LoopStep)
    requires CanLoopStep(s.batcher, l) && WakeInv(s)
    ensures WakeInv(DoLoopStep(s, l))
  {
    LoopStepKeepsInv(s.batcher, l, Todo(s.workers, NotifyLoop));
    if l.ReleaseNext? && s.batcher.drain.left != [] {
      var left := s.batcher.drain.left;
      assert left == [left[0]] + left[1..];
      assert left[0] in s.batcher.InDrain() && left[0] in s.batcher.pushed;
    }
  }

  /** The task takes itself off: whatever it was about to do, it needs no wake any more. */
  lemma OverKeepsWake(s: System)
    requires WakeInv(s)
    ensures WakeInv(s.(awaiter := Over))
  {
  }

  lemma CarefulPollKeepsWake(s: System, c: Outcome)
    requires Sound(s) && CanStep(s, Step.Poll(c)) && WakeInv(s) && !Careless(s, Step.Poll(c))
    ensures WakeInv(DoPoll(s, c))
  {
    WakesAreTodo(s.workers);
  }

  /** Every step was taken with care, as one asyncio task does that drives the future and is
      the only one to throw into it while parked on it. */
  ghost predicate DrivenByOneTask(r: Run)
    requires Possible(r)
  {
    r.Then? ==> DrivenByOneTask(r.before) && !Careless(StateOf(r.before), r.step)
  }

  /** The steps of the task itself. */
  lemma TaskStepKeepsWake(s: System, step: Step)
    requires CanStep(s, step) && Sound(s) && WakeInv(s) && !Careless(s, step)
    requires || step.Poll? || step.ParkNow? || step.InnerPending? || step.InnerReady?
             || step.Throw? || step.Resume? || step.CancelParked?
    ensures WakeInv(Next(s, step))
  {
    match step
    case Poll(c) => CarefulPollKeepsWake(s, c);
    case Throw(e) =>
      OverKeepsWake(s);
      CarefulThrowKeepsWake(s.(awaiter := Over), e);
    case _ =>
  }

  /** The steps of those who ask for the result. */
  lemma UserStepKeepsWake(s: System, step: Step)
    requires CanStep(s, step) && Sound(s) && WakeInv(s)
    requires step.StartOnTokio? || step.AddCallback? || step.AskResult? || step.ReadOutcome? || step.WaiterMoves?
    ensures WakeInv(Next(s, step))
  {
    if step.AddCallback? && s.state.Ready? {
      AddedThreadKeepsWake(s, [Fire([|s.kinds|], Read(s, step.conversion).1)]);
    }
  }

  lemma StepKeepsWake(s: System, step: Step)
    requires CanStep(s, step) && Sound(s) && WakeInv(s) && !Careless(s, step)
    ensures WakeInv(Next(s, step))
  {
    match step
    case OutsiderThrows(e) => CarefulThrowKeepsWake(s, e);
    case Close(e) => CloseKeepsWake(s, e);
    case ResolveTask(raw) => ResolveKeepsWake(s.(task := Some(Signalled)), Unconverted(raw));
    case DropTask =>
      if s.task != Some(Unpolled) { ResolveKeepsWake(s.(task := Some(Signalled)), Converted(Failure(DROPPED))); }
    case Work(w, c, n) => WorkKeepsWake(s, w, c, n);
    case StrayWake => AddedThreadKeepsWake(s, [Wake]);
    case ForeignPush => ForeignPushKeepsWake(s);
    case OnLoop(l) => LoopStepKeepsWake(s, l);
    case PollTask =>
    case StartOnTokio => UserStepKeepsWake(s, step);
    case AddCallback(_, _) => UserStepKeepsWake(s, step);
    case AskResult(_) => UserStepKeepsWake(s, step);
    case ReadOutcome(_) => UserStepKeepsWake(s, step);
    case WaiterMoves(_) => UserStepKeepsWake(s, step);
    case _ => TaskStepKeepsWake(s, step);
  }

  lemma {:induction false} EveryRunKeepsWake(r: Run)
    requires Possible(r) && DrivenByOneTask(r)
    ensures WakeInv(StateOf(r))
  {
    if r.Then? {
      EveryRunKeepsWake(r.before);
      StepKeepsWake(StateOf(r.before), r.step);
    }
  }

  // --------------------------------------------------------------------------------- the promises

  /** No lost wake-up: if the future is finished and the task awaiting it is parked on an
      undone `asyncio.Future` of a loop that lives, then a thread is about to wake the slot,
      or that future is with a thread that delivers it, or in the queue of a batcher that has
      the loop notified or about to be, or in the drain's hands. */
  lemma NoLostWakeup(r: Run)
    requires Possible(r) && DrivenByOneTask(r)
    requires var s := StateOf(r);
             s.state.Ready? && s.awaiter.Suspended? && s.awaiter.future !in s.done && s.batcher.alive
    ensures var s := StateOf(r); var f := s.awaiter.future;
            || (s.slot == Parked(f) && Todo(s.workers, Wake))
            || Todo(s.workers, Deliver(f))
            || (f in s.batcher.queue && (s.batcher.Notified() || Todo(s.workers, NotifyLoop)))
            || f in s.batcher.InDrain()
  {
    EveryRunKeepsWake(r);
    WakesAreTodo(StateOf(r).workers);
  }

  /** No thread has anything left to do, and the loop has no drain to run. */
  ghost predicate AtRest(s: System) {
    && (forall w :: 0 <= w < |s.workers| ==> s.workers[w] == [])
    && s.batcher.drain.NotDraining? && !s.batcher.Notified()
  }

  /** Once the future is finished and everything has come to rest on a loop that lives, the
      task is not left parked, no thread is left blocked in `result()`, and a wait that ended
      without a timeout ended because the future is finished. */
  lemma NobodyIsLeftWaiting(r: Run)
    requires Possible(r) && DrivenByOneTask(r)
    requires var s := StateOf(r); s.state.Ready? && AtRest(s) && s.batcher.alive
    ensures var s := StateOf(r);
            && (s.awaiter.Suspended? ==> s.awaiter.future in s.done)
            && (s.awaiter.ToPark? ==> s.slot.Woken?)
            && (forall t :: 0 <= t < |s.lock.threads| ==> !s.lock.threads[t].Blocked?)
  {
    EveryRunKeepsWake(r);
    EveryRunCoversWaiters(r);
    var s := StateOf(r);
    WakesAreTodo(s.workers);
    forall a ensures !Todo(s.workers, a) {
    }
    if s.awaiter.Suspended? && s.awaiter.future !in s.done {
      NoLostWakeup(r);
    }
  }

  /** No thread waits on a future driven by the loop, which is why the transitions out of
      that state need not notify; and a wait that ended in time ended on a finished future. */
  lemma WaitersOnlyOnTheRuntime(r: Run)
    requires Possible(r)
    ensures var s := StateOf(r);
            && (s.state.PendingAsyncio? || s.state.Panicked? ==> s.lock.waiters == 0 && s.lock.threads == [])
            && s.lock.waiters == Sum(s.lock.threads, Inside)
            && (forall t :: 0 <= t < |s.lock.threads| && s.lock.threads[t] == Left(false) ==> s.state.Ready?)
  {
    EveryRunCoversWaiters(r);
  }
}
