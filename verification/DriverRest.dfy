/** Once a `DriverFuture` is finished, its threads and the event loop come to rest by their own
    steps, in whatever order they take them, and then nobody is left waiting. */
module DriverRest {
  import opened Common
  import opened Batcher
  import opened DriverProtocol
  import opened DriverWakeups
  import opened DriverStranded

  /** A thread going on with its list, or the loop with its drains. */
  predicate IsOwnStep(step: Step) {
    step.Work? || (step.OnLoop? && !step.loopStep.CloseLoop?)
  }

  /** An upper bound on the steps an action leads to, those of the loop included. */
  ghost function ActionWork(a: Action): int {
    match a
    case NotifyWaiters(_) => 1
    case Fire(cbs, _) => 1 + |cbs|
    case FireReady(cbs) => 2 + |cbs|
    case NotifyLoop => 6
    case Deliver(_) => 8
    case Wake => 9
  }

  ghost function ThreadWork(todo: seq<Action>): int {
    Sum(todo, ActionWork)
  }

  /** A byte in the pipe is worth a drain, which takes all there are. */
  ghost function DrainWork(b: Queue): int {
    match b.drain
    case NotDraining => 5 * b.bytes
    case Acknowledging => if b.bytes == 0 then 3 else 5 * b.bytes - 1
    case Acknowledged => 2 + 5 * b.bytes
    case Releasing(left) => 1 + |left| + 5 * b.bytes
  }

  ghost function LoopWork(b: Queue): int {
    4 * b.scheduled + |b.queue| + DrainWork(b)
  }

  ghost function WorkLeft(s: System): int {
    Sum(s.workers, ThreadWork) + LoopWork(s.batcher)
  }

  lemma WorkIsNotNegative(s: System)
    ensures WorkLeft(s) >= 0
  {
    forall todo: seq<Action> ensures ThreadWork(todo) >= 0 {
      SumNonNegative(todo, ActionWork);
    }
    SumNonNegative(s.workers, ThreadWork);
  }

  lemma Consed(a: Action, rest: seq<Action>)
    ensures ThreadWork([a] + rest) == ActionWork(a) + ThreadWork(rest)
  {
    assert ([a] + rest)[1..] == rest;
  }

  /** Thread `w` replaced its first action by `instead`. */
  lemma ThreadMoved(workers: seq<seq<Action>>, w: nat, instead: seq<Action>)
    requires w < |workers| && workers[w] != [] && |instead| <= 1
    ensures Sum(workers[w := instead + workers[w][1..]], ThreadWork)
            == Sum(workers, ThreadWork) - ActionWork(workers[w][0])
               + (if instead == [] then 0 else ActionWork(instead[0]))
  {
    var rest := workers[w][1..];
    assert workers[w] == [workers[w][0]] + rest;
    Consed(workers[w][0], rest);
    if instead == [] {
      assert instead + rest == rest;
    } else {
      assert instead == [instead[0]];
      Consed(instead[0], rest);
    }
    SumUpdate(workers, w, instead + rest, ThreadWork);
  }

  /** What a thread's first action leaves to be done in its place. */
  ghost function Instead(s: System, w: nat, c: Outcome): seq<Action>
    requires w < |s.workers| && s.workers[w] != [] && s.state.Ready?
  {
    match s.workers[w][0]
    case FireReady(cbs) => [Fire(cbs, Read(s, c).1)]
    case Fire(cbs, outcome) => if cbs == [] then [] else [Fire(cbs[1..], outcome)]
    case Wake => if s.slot.Parked? then [Deliver(s.slot.future)] else []
    case Deliver(_) => if s.batcher.armed then [] else [NotifyLoop]
    case _ => []
  }

  lemma WorkIsProgress(s: System, w: nat, c: Outcome, n: Notice)
    requires CanStep(s, Work(w, c, n)) && s.state.Ready? && s.batcher.alive
    ensures WorkLeft(DoWork(s, w, c, n)) < WorkLeft(s)
  {
    var instead, rest, s' := Instead(s, w, c), s.workers[w][1..], DoWork(s, w, c, n);
    ThreadMoved(s.workers, w, instead);
    assert [] + rest == rest;
    assert s'.workers == s.workers[w := instead + rest];
    assert LoopWork(s'.batcher) <= LoopWork(s.batcher)
           + if s.workers[w][0].Deliver? then 1 else if s.workers[w][0].NotifyLoop? then 5 else 0;
  }

  lemma LoopStepIsProgress(b: Queue, l: LoopStep)
    requires CanLoopStep(b, l) && !l.CloseLoop?
    ensures LoopWork(LoopNext(b, l)) < LoopWork(b)
  {
  }

  /** Every step the threads or the loop take on their own brings the end nearer, and leaves
      the future finished and the loop alive. */
  lemma EveryOwnStepIsProgress(s: System, step: Step)
    requires CanStep(s, step) && Sound(s) && IsOwnStep(step) && s.state.Ready? && s.batcher.alive
    ensures WorkLeft(Next(s, step)) < WorkLeft(s)
    ensures Next(s, step).state.Ready? && Next(s, step).batcher.alive
  {
    match step
    case Work(w, c, n) => WorkIsProgress(s, w, c, n);
    case OnLoop(l) => LoopStepIsProgress(s.batcher, l);
  }

  /** And if no such step can be taken, all is at rest. */
  lemma SomethingToDo(s: System) returns (step: Step)
    requires Sound(s) && s.state.Ready? && s.batcher.alive && !AtRest(s)
    ensures CanStep(s, step) && IsOwnStep(step)
  {
    if w: nat :| w < |s.workers| && s.workers[w] != [] {
      step := Work(w, Failure(0), Written);
    } else {
      var b := s.batcher;
      match b.drain
      case NotDraining => step := OnLoop(BeginDrain(b.scheduled > 0));
      case Acknowledging => step := OnLoop(ReadPipe(if b.bytes <= 64 then b.bytes else 64));
      case Acknowledged => step := OnLoop(TakeQueue);
      case Releasing(_) => step := OnLoop(ReleaseNext);
    }
  }

  /** `later` is `r` followed by own steps. */
  ghost predicate RunsOn(later: Run, r: Run) {
    later == r || (later.Then? && RunsOn(later.before, r) && IsOwnStep(later.step))
  }

  lemma {:induction false} RunsOnFrom(later: Run, r: Run, step: Step)
    requires RunsOn(later, Then(r, step)) && IsOwnStep(step)
    ensures RunsOn(later, r)
  {
    if later != Then(r, step) {
      RunsOnFrom(later.before, r, step);
    } else {
      assert RunsOn(r, r);
    }
  }

  /** From any run taken with care whose future is finished, on a loop that lives: all comes to
      rest, and then the task is not left parked on an undone future, it will find a wake if it
      is about to park, and no thread is blocked in `result()`. */
  lemma {:induction false} AllComesToRest(r: Run) returns (later: Run)
    requires Possible(r) && DrivenByOneTask(r) && StateOf(r).state.Ready? && StateOf(r).batcher.alive
    ensures Possible(later) && RunsOn(later, r) && AtRest(StateOf(later))
    ensures var s := StateOf(later);
            && s.state.Ready? && !Stranded(s)
            && (s.awaiter.Suspended? ==> s.awaiter.future in s.done)
            && (s.awaiter.ToPark? ==> s.slot.Woken?)
            && (forall t :: 0 <= t < |s.lock.threads| ==> !s.lock.threads[t].Blocked?)
    decreases WorkLeft(StateOf(r))
  {
    var s := StateOf(r);
    if AtRest(s) {
      later := r;
      NobodyIsLeftWaiting(r);
    } else {
      var step := SomethingToDo(s);
      EveryOwnStepIsProgress(s, step);
      WorkIsNotNegative(s);
      later := AllComesToRest(Then(r, step));
      RunsOnFrom(later, r, step);
    }
  }

  // ------------------------------------------------------------------------ and the task goes on

  /** `later` is `r` followed by own steps and by what the task does. */
  ghost predicate RunsOnWithTask(later: Run, r: Run) {
    || later == r
    || (later.Then? && RunsOnWithTask(later.before, r)
        && (IsOwnStep(later.step) || later.step.Resume? || later.step.ParkNow? || later.step.Poll?))
  }

  /** Neither the threads nor the loop touch the task. */
  lemma {:induction false} TaskIsLeftAlone(later: Run, r: Run)
    requires Possible(later) && Possible(r) && RunsOn(later, r)
    ensures StateOf(later).awaiter == StateOf(r).awaiter && StateOf(later).cancelled == StateOf(r).cancelled
    ensures RunsOnWithTask(later, r)
  {
    if later != r {
      TaskIsLeftAlone(later.before, r);
      OwnStepLeavesTask(StateOf(later.before), later.step);
    }
  }

  lemma OwnStepLeavesTask(s: System, step: Step)
    requires CanStep(s, step) && Sound(s) && IsOwnStep(step)
    ensures Next(s, step).awaiter == s.awaiter && Next(s, step).cancelled == s.cancelled
  {
  }

  /** The task that awaits a finished future gets its outcome, without anybody's help, unless it
      was cancelled. */
  lemma TaskGetsTheOutcome(r: Run) returns (later: Run)
    requires Possible(r) && DrivenByOneTask(r) && StateOf(r).state.Ready? && StateOf(r).batcher.alive
    requires var s := StateOf(r); !s.awaiter.Over? && (s.awaiter.Suspended? ==> s.awaiter.future !in s.cancelled)
    ensures Possible(later) && RunsOnWithTask(later, r)
    ensures var s := StateOf(later);
            && s.awaiter.Over? && s.seen != []
            && s.state == Ready(Converted(s.seen[|s.seen| - 1]))
  {
    later := AllComesToRest(r);
    TaskIsLeftAlone(later, r);
    if StateOf(later).awaiter.Suspended? {
      later := Then(later, Resume);
    } else if StateOf(later).awaiter.ToPark? {
      later := Then(later, ParkNow);
    }
    assert Possible(later) && RunsOnWithTask(later, r) && StateOf(later).awaiter.Runnable?;
    later := Then(later, Poll(Failure(0)));
  }
}
