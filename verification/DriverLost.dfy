/** A `DriverFuture` whose task was torn down before its first poll: nobody is told, and the
    future stays pending until somebody closes it or throws into it. */
module DriverLost {
  import opened Common
  import opened GuardedTask
  import opened DriverProtocol

  ghost predicate GoesOnFrom(later: Run, r: Run) {
    later == r || (later.Then? && GoesOnFrom(later.before, r))
  }

  /** `close`, `cancel` or `throw`. */
  predicate EndsIt(step: Step) {
    step.Close? || step.Throw? || step.OutsiderThrows?
  }

  /** Between `r` and `later` somebody closed the future or threw into it. */
  ghost predicate EndedFrom(later: Run, r: Run) {
    later != r && later.Then? && (EndsIt(later.step) || EndedFrom(later.before, r))
  }

  /** Spawned on the runtime, not finished, and its task torn down unpolled. */
  ghost predicate LeftPending(s: System) {
    s.state.PendingTokio? && s.task == Some(Lost)
  }

  lemma StepLeavesPending(s: System, step: Step)
    requires CanStep(s, step) && Sound(s) && LeftPending(s)
    ensures if EndsIt(step) then Next(s, step).state.Ready? else LeftPending(Next(s, step))
  {
  }

  lemma ReadyStays(s: System, step: Step)
    requires CanStep(s, step) && Sound(s) && s.state.Ready?
    ensures Next(s, step).state.Ready?
  {
  }

  /** However a run with the task lost goes on, the future is finished if, and only if, it was
      closed or thrown into since; else it is pending still. */
  lemma {:induction false} LostTaskLeavesPending(r: Run, later: Run)
    requires Possible(r) && LeftPending(StateOf(r)) && Possible(later) && GoesOnFrom(later, r)
    ensures StateOf(later).state.Ready? <==> EndedFrom(later, r)
    ensures StateOf(later).state.Ready? || LeftPending(StateOf(later))
  {
    if later != r {
      LostTaskLeavesPending(r, later.before);
      var s := StateOf(later.before);
      if s.state.Ready? {
        ReadyStays(s, later.step);
      } else {
        StepLeavesPending(s, later.step);
      }
    }
  }

  /** A future on the runtime has a task there that did not signal. */
  ghost predicate TaskInv(s: System) {
    && (s.state.PendingTokio? ==> s.task in {Some(Unpolled), Some(Polled), Some(Lost)})
    && (s.state.PendingAsyncio? || s.state.Panicked? ==> s.task.None?)
  }

  lemma StepKeepsTask(s: System, step: Step)
    requires CanStep(s, step) && Sound(s) && TaskInv(s)
    ensures TaskInv(Next(s, step))
  {
  }

  lemma {:induction false} EveryRunKeepsTask(r: Run)
    requires Possible(r)
    ensures TaskInv(StateOf(r))
  {
    if r.Then? {
      EveryRunKeepsTask(r.before);
      StepKeepsTask(StateOf(r.before), r.step);
    }
  }

  /** The future can still finish without anybody closing it or throwing into it. */
  ghost predicate CanResolve(r: Run)
    requires Possible(r)
  {
    exists later :: Possible(later) && GoesOnFrom(later, r) && !EndedFrom(later, r) && StateOf(later).state.Ready?
  }

  lemma TaskCanResolve(r: Run) returns (later: Run)
    requires Possible(r) && StateOf(r).state.PendingTokio? && StateOf(r).task != Some(Lost)
    ensures Possible(later) && GoesOnFrom(later, r) && !EndedFrom(later, r) && StateOf(later).state.Ready?
  {
    EveryRunKeepsTask(r);
    assert GoesOnFrom(r, r) && !EndedFrom(r, r);
    var polled := r;
    if StateOf(r).task == Some(Unpolled) {
      polled := Then(r, PollTask);
      assert GoesOnFrom(polled, r) && !EndedFrom(polled, r);
    }
    later := Then(polled, ResolveTask(0));
    assert !EndedFrom(later, r);
  }

  /** So a future on the runtime can finish on its own if, and only if, its task was not torn
      down before the first poll. */
  lemma PendingCanResolveUnlessLost(r: Run)
    requires Possible(r) && StateOf(r).state.PendingTokio?
    ensures CanResolve(r) <==> StateOf(r).task != Some(Lost)
  {
    if StateOf(r).task == Some(Lost) {
      forall later | Possible(later) && GoesOnFrom(later, r) && !EndedFrom(later, r)
        ensures !StateOf(later).state.Ready?
      {
        LostTaskLeavesPending(r, later);
      }
    } else {
      var later := TaskCanResolve(r);
    }
  }

  lemma TasksCanBeLost() returns (r: Run)
    ensures Possible(r) && LeftPending(StateOf(r))
  {
    var r1 := Then(Begun, StartOnTokio);
    assert StateOf(r1).task == Some(Unpolled);
    r := Then(r1, DropTask);
  }
}
