/** Where the wake-ups of a `DriverFuture` stop short: exactly which steps leave the awaiting
    task open to being stranded. */
module DriverStranded {
  import opened Common
  import opened GuardedTask
  import opened StateLock
  import opened Waker
  import opened Batcher
  import opened DriverProtocol
  import opened DriverWakeups

  /** The future is finished, and nothing is going to wake the task parked for it. */
  ghost predicate Stranded(s: System) {
    && s.state.Ready? && s.awaiter.Suspended? && s.awaiter.future !in s.done && s.batcher.alive
    && !Todo(s.workers, Wake) && !OnItsWay(s, s.awaiter.future)
  }

  lemma CoveredIsNotStranded(s: System)
    requires WakeInv(s)
    ensures !Stranded(s)
  {
    WakesAreTodo(s.workers);
  }

  /** A throw from outside strands the task at once, exactly if it was careless. */
  lemma ThrowStrandsExactlyWhen(s: System, e: nat)
    requires Sound(s) && WakeInv(s)
    ensures Stranded(DoThrow(s, e)) <==> Careless(s, OutsiderThrows(e))
  {
    if !Careless(s, OutsiderThrows(e)) {
      CarefulThrowKeepsWake(s, e);
      CoveredIsNotStranded(DoThrow(s, e));
    } else {
      FilledSlotIsNotOnItsWay(s);
      assert DoThrow(s, e).workers == s.workers;
    }
  }

  lemma FilledSlotIsNotOnItsWay(s: System)
    requires WakeInv(s) && s.slot.Parked?
    ensures !OnItsWay(s, s.slot.future)
  {
    var b, f := s.batcher, s.slot.future;
    assert forall g :: g in b.queue || g in b.InDrain() || g in b.discarded ==> g in b.pushed;
  }

  // ------------------------------------------------------------------- after a careless poll

  /** `later` is `r` followed by steps taken with care. */
  ghost predicate CarefulFrom(later: Run, r: Run)
    requires Possible(later)
  {
    later == r || (later.Then? && CarefulFrom(later.before, r) && !Careless(StateOf(later.before), later.step))
  }

  /** The task polled while still in the slot: it is about to park, and no wake is coming. */
  ghost predicate PolledTwice(s: System) {
    && s.state.PendingTokio? && s.awaiter.ToPark? && s.slot.Parked? && s.batcher.alive && Sound(s)
    && !Todo(s.workers, Wake) && Ids(s) && QueueInv(s.batcher, Todo(s.workers, NotifyLoop))
  }

  /** The future is closed, and the closing thread is about to wake whoever is in the slot. */
  ghost predicate AboutToWake(s: System, w: nat, fire: Action) {
    && s.state.Ready? && s.awaiter.ToPark? && s.slot.Parked? && s.batcher.alive && Ids(s)
    && w + 1 == |s.workers| && s.workers[w] == [Wake, fire] && !fire.Wake? && !fire.Deliver?
        && !Todo(s.workers[..w], Wake)
    && QueueInv(s.batcher, Todo(s.workers, NotifyLoop))
  }

  lemma TodoPrefix(workers: seq<seq<Action>>, todo: seq<Action>, a: Action)
    ensures Todo(workers + [todo], a) <==> Todo(workers, a) || a in todo
  {
    if v :| 0 <= v < |workers + [todo]| && a in (workers + [todo])[v] {
      if v < |workers| {
        assert a in workers[v];
      }
    }
    if Todo(workers, a) || a in todo {
      TodoAdded(workers, todo, a);
    }
  }

  function Working(w: nat): Step {
    Work(w, Failure(0), Written)
  }

  lemma ClosingComesBetween(s: System) returns (closed: System, fire: Action)
    requires PolledTwice(s)
    ensures closed == Next(s, Close(1)) && CanStep(closed, Working(|s.workers|)) && Sound(closed)
    ensures AboutToWake(Next(closed, Working(|s.workers|)), |s.workers|, fire)
  {
    var w := |s.workers|;
    fire := Fire(s.state.callbacks, Failure(1));
    var todo := [NotifyWaiters(|s.lock.notifications|), Wake, fire];
    closed := Next(s, Close(1));
    assert closed.workers == s.workers + [todo];
    var woken := Next(closed, Working(w));
    assert todo[1..] == [Wake, fire];
    assert woken.workers == s.workers + [[Wake, fire]];
    assert woken.workers[..w] == s.workers;
    forall a ensures Todo(woken.workers, a) <==> Todo(s.workers, a) || a == Wake || a == fire {
      TodoPrefix(s.workers, [Wake, fire], a);
    }
  }

  /** The wake takes the future out of the slot, and then the task parks on another one. */
  lemma ParkingComesTooLate(s: System, w: nat, fire: Action) returns (woken: System)
    requires AboutToWake(s, w, fire)
    ensures CanStep(s, Working(w)) && woken == DoWork(s, w, Failure(0), Written) && woken.awaiter.ToPark?
    ensures Stranded(DoPark(woken))
  {
    woken := DoWork(s, w, Failure(0), Written);
    var workers, todo := s.workers[..w], [Deliver(s.slot.future), fire];
    assert [Wake, fire][1..] == [fire] && [Deliver(s.slot.future)] + [fire] == todo;
    assert s.workers == workers + [[Wake, fire]];
    assert woken.workers == workers + [todo];
    forall a ensures Todo(woken.workers, a) <==> Todo(workers, a) || a in todo {
      TodoPrefix(workers, todo, a);
    }
    forall a | Todo(workers, a) ensures Todo(s.workers, a) {
      TodoPrefix(workers, [Wake, fire], a);
    }
    var b := s.batcher;
    assert forall g :: g in b.queue || g in b.InDrain() || g in b.discarded ==> g in b.pushed;
  }

  lemma GoesOnWithCare(r: Run, step: Step, from: Run)
    requires Possible(r) && CarefulFrom(r, from) && CanStep(StateOf(r), step) && !Careless(StateOf(r), step)
    ensures Possible(Then(r, step)) && CarefulFrom(Then(r, step), from)
        && StateOf(Then(r, step)) == Next(StateOf(r), step)
  {
  }

  lemma WakeThenPark(r: Run, w: nat, fire: Action, from: Run) returns (later: Run)
    requires Possible(r) && CarefulFrom(r, from) && AboutToWake(StateOf(r), w, fire)
    ensures Possible(later) && CarefulFrom(later, from) && Stranded(StateOf(later))
  {
    var woken := ParkingComesTooLate(StateOf(r), w, fire);
    GoesOnWithCare(r, Working(w), from);
    GoesOnWithCare(Then(r, Working(w)), ParkNow, from);
    later := Then(Then(r, Working(w)), ParkNow);
  }

  /** A careless poll, and then nothing but ordinary steps: the future is closed, the wake
      goes to the future in the slot, and the task parks on one that nobody will set. */
  lemma CarelessPollCanStrand(r: Run, c: Outcome) returns (later: Run)
    requires Possible(r) && WakeInv(StateOf(r)) && CanStep(StateOf(r), Step.Poll(c))
        && Careless(StateOf(r), Step.Poll(c))
    ensures Possible(later) && CarefulFrom(later, Then(r, Step.Poll(c))) && Stranded(StateOf(later))
  {
    var r1 := Then(r, Step.Poll(c));
    var s := StateOf(r1);
    assert PolledTwice(s);
    var closed, fire := ClosingComesBetween(s);
    GoesOnWithCare(r1, Close(1), r1);
    var r2 := Then(r1, Close(1));
    GoesOnWithCare(r2, Working(|s.workers|), r1);
    later := WakeThenPark(Then(r2, Working(|s.workers|)), |s.workers|, fire, r1);
  }

  lemma {:induction false} CarefulRunsAreDriven(later: Run, r: Run)
    requires Possible(later) && CarefulFrom(later, r) && (Possible(r) ==> DrivenByOneTask(r))
    ensures DrivenByOneTask(later)
  {
    if later != r {
      CarefulRunsAreDriven(later.before, r);
    }
  }

  lemma CarelessStepCanStrand(r: Run, step: Step) returns (later: Run)
    requires Possible(r) && WakeInv(StateOf(r)) && CanStep(StateOf(r), step) && Careless(StateOf(r), step)
    ensures Possible(later) && CarefulFrom(later, Then(r, step)) && Stranded(StateOf(later))
  {
    if step.Poll? {
      later := CarelessPollCanStrand(r, step.conversion);
    } else {
      ThrowStrandsExactlyWhen(StateOf(r), step.error);
      later := Then(r, step);
    }
  }

  lemma CareNeverStrands(r: Run, later: Run)
    requires Possible(r) && DrivenByOneTask(r) && Possible(later) && CarefulFrom(later, r)
    ensures !Stranded(StateOf(later))
  {
    CarefulRunsAreDriven(later, r);
    EveryRunKeepsWake(later);
    CoveredIsNotStranded(StateOf(later));
  }

  /** Some way of going on from `r` with care strands the task. */
  ghost predicate CanEndStranded(r: Run) {
    exists later :: Possible(later) && CarefulFrom(later, r) && Stranded(StateOf(later))
  }

  /** Care is exactly what it takes. After any run taken with care, and any step: if the step
      is careful too, no careful continuation strands the task; if it is not, one does. */
  lemma CareIsExactlyWhatItTakes(r: Run, step: Step)
    requires Possible(r) && DrivenByOneTask(r) && CanStep(StateOf(r), step)
    ensures CanEndStranded(Then(r, step)) <==> Careless(StateOf(r), step)
  {
    EveryRunKeepsWake(r);
    if Careless(StateOf(r), step) {
      var later := CarelessStepCanStrand(r, step);
    } else {
      forall later | Possible(later) && CarefulFrom(later, Then(r, step)) ensures !Stranded(StateOf(later)) {
        CareNeverStrands(Then(r, step), later);
      }
    }
  }

  // ----------------------------------------------------------------------------- both do happen

  /** Parked on future 0, and nothing else going on. */
  ghost function ParkedOnZero(state: FutureState, task: Option<Task>): System {
    INITIAL.(state := state, task := task, lock := NewLock(PhaseOf(state)),
             slot := Parked(0), awaiter := Suspended(0), futures := 1)
  }

  /** An outsider's throw can strand the task that awaits the future. */
  lemma OutsiderThrowCanStrand() returns (r: Run)
    ensures Possible(r) && Stranded(StateOf(r))
  {
    var r1 := Then(Begun, Step.Poll(Failure(0)));
    var r2 := Then(r1, InnerPending);
    assert StateOf(r2) == ParkedOnZero(PendingAsyncio(true), None);
    r := Then(r2, OutsiderThrows(1));
    assert StateOf(r).workers == [];
  }

  /** So can a poll by a task that is still parked. */
  lemma RepollCanStrand() returns (r: Run)
    ensures Possible(r) && Stranded(StateOf(r))
  {
    var r1 := Then(Then(Then(Begun, StartOnTokio), Step.Poll(Failure(0))), ParkNow);
    assert StateOf(r1) == ParkedOnZero(PendingTokio([]), Some(Unpolled));
    assert WakeInv(StateOf(r1));
    r := CarelessPollCanStrand(r1, Failure(0));
  }
}
