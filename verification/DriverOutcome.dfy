/** A `DriverFuture` has one outcome: one completer wins, every reader and every callback
    sees the same, and each callback is called once or passed over once. */
module DriverOutcome {
  import opened Common
  import opened GuardedTask
  import opened Batcher
  import opened DriverProtocol

  // ------------------------------------------------------------------------------ moving forward

  function Rank(state: FutureState): nat {
    match state
    case PendingTokio(_) => 1
    case Ready(_) => 2
    case _ => 0
  }

  /** Every step keeps or advances the state; a finished future stays finished and its
      converted outcome never changes. */
  lemma StepsMoveForward(s: System, step: Step)
    requires CanStep(s, step) && Sound(s)
    ensures var s' := Next(s, step);
            && Rank(s.state) <= Rank(s'.state)
            && (s.state.Ready? ==> s'.state.Ready? && s'.completions == s.completions
                                   && (s.state.result.Converted? ==> s'.state == s.state))
            && (!s.state.Ready? ==> s'.completions == s.completions + if s'.state.Ready? then 1 else 0)
  {
  }

  /** Exactly one completer wins. */
  lemma {:induction false} CompletedOnce(r: Run)
    requires Possible(r)
    ensures StateOf(r).completions == if StateOf(r).state.Ready? then 1 else 0
  {
    if r.Then? {
      CompletedOnce(r.before);
      StepsMoveForward(StateOf(r.before), r.step);
    }
  }

  /** A runtime task that finishes or is dropped after the future is done changes nothing
      but its own end. */
  lemma LateCompletionIsIgnored(s: System, raw: nat)
    requires Sound(s) && CanStep(s, ResolveTask(raw)) && s.state.Ready?
    ensures Next(s, ResolveTask(raw)) == s.(task := Some(Signalled))
    ensures Next(s, DropTask) == s.(task := Some(Signalled))
  {
  }

  // --------------------------------------------------------------------------------- one outcome

  /** An action that carries an outcome carries the future's. */
  ghost predicate Carries(state: FutureState, a: Action) {
    && (a.Fire? ==> state == Ready(Converted(a.outcome)))
    && (a.FireReady? ==> state.Ready?)
  }

  ghost predicate AllCarry(state: FutureState, todo: seq<Action>) {
    forall i :: 0 <= i < |todo| ==> Carries(state, todo[i])
  }

  ghost predicate Agreed(s: System) {
    && (forall i :: 0 <= i < |s.seen| ==> s.state == Ready(Converted(s.seen[i])))
    && (forall i :: 0 <= i < |s.calls| ==> s.state == Ready(Converted(s.calls[i].outcome)))
    && (forall i :: 0 <= i < |s.passed| ==> s.state == Ready(Converted(s.passed[i].outcome)))
    && (forall w :: 0 <= w < |s.workers| ==> AllCarry(s.state, s.workers[w]))
  }

  /** Converting the result changes nothing for whoever has it converted. */
  lemma ReadKeepsAgreed(s: System, conversion: Outcome)
    requires s.state.Ready? && Agreed(s)
    ensures Agreed(Read(s, conversion).0) && Read(s, conversion).0.state == Ready(Converted(Read(s, conversion).1))
  {
    var s' := Read(s, conversion).0;
    forall w | 0 <= w < |s.workers| ensures AllCarry(s'.state, s.workers[w]) {
      assert AllCarry(s.state, s.workers[w]);
    }
  }

  /** Before the end nobody has seen an outcome, so any outcome may be the first. */
  lemma CompleteKeepsAgreed(s: System, state: FutureState, todo: seq<Action>)
    requires !s.state.Ready? && Agreed(s) && AllCarry(state, todo)
    ensures Agreed(s.(state := state, workers := s.workers + [todo]))
  {
    forall w | 0 <= w < |s.workers| ensures AllCarry(state, s.workers[w]) {
      assert AllCarry(s.state, s.workers[w]);
      forall i | 0 <= i < |s.workers[w]| ensures Carries(state, s.workers[w][i]) {
        assert Carries(s.state, s.workers[w][i]);
      }
    }
  }

  lemma WorkKeepsAgreed(s: System, w: nat, conversion: Outcome, n: Notice)
    requires w < |s.workers| && s.workers[w] != [] && Agreed(s)
    ensures Agreed(DoWork(s, w, conversion, n))
  {
    var todo, s' := s.workers[w], DoWork(s, w, conversion, n);
    assert AllCarry(s.state, todo) && Carries(s.state, todo[0]);
    if todo[0].FireReady? {
      ReadKeepsAgreed(s, conversion);
      var read := Read(s, conversion).0;
      assert AllCarry(read.state, todo);
    }
    forall i | 0 <= i < |s'.workers[w]| ensures Carries(s'.state, s'.workers[w][i]) {
    }
  }

  lemma StepKeepsAgreed(s: System, step: Step)
    requires CanStep(s, step) && Sound(s) && Agreed(s)
    ensures Agreed(Next(s, step))
  {
    match step
    case Poll(c) =>
      if s.state.Ready? { ReadKeepsAgreed(s, c); } else { CompleteKeepsAgreed(s, Next(s, step).state, []); }
    case InnerPending => CompleteKeepsAgreed(s, PendingAsyncio(true), []);
    case InnerReady(o) => CompleteKeepsAgreed(s, Ready(Converted(o)), []);
    case Throw(e) => ThrowKeepsAgreed(s, e);
    case OutsiderThrows(e) => ThrowKeepsAgreed(s, e);
    case Close(e) => CloseKeepsAgreed(s, e);
    case StartOnTokio => if !s.state.Ready? { CompleteKeepsAgreed(s, Next(s, step).state, []); }
    case AddCallback(k, c) => AddCallbackKeepsAgreed(s, k, c);
    case AskResult(c) =>
      if s.state.Ready? { ReadKeepsAgreed(s, c); } else { CompleteKeepsAgreed(s, Next(s, step).state, []); }
    case ReadOutcome(c) => ReadKeepsAgreed(s, c);
    case ResolveTask(raw) => ResolveKeepsAgreed(s.(task := Some(Signalled)), Unconverted(raw));
    case DropTask =>
      if s.task != Some(Unpolled) { ResolveKeepsAgreed(s.(task := Some(Signalled)), Converted(Failure(DROPPED))); }
    case Work(w, c, n) => WorkKeepsAgreed(s, w, c, n);
    case _ =>
  }

  lemma ThrowKeepsAgreed(s: System, e: nat)
    requires s.lock.phase == PhaseOf(s.state) && Agreed(s)
    ensures Agreed(DoThrow(s, e))
  {
    if s.state.PendingAsyncio? {
      CompleteKeepsAgreed(s, Ready(Converted(Failure(e))), []);
    } else if s.state.PendingTokio? {
      CompleteKeepsAgreed(s, Ready(Converted(Failure(e))), DoThrow(s, e).workers[|s.workers|]);
    }
  }

  lemma CloseKeepsAgreed(s: System, e: nat)
    requires s.lock.phase == PhaseOf(s.state) && Agreed(s)
    ensures Agreed(DoClose(s, e))
  {
    if s.state.PendingAsyncio? {
      CompleteKeepsAgreed(s, Ready(Converted(Failure(e))), [Wake]);
    } else if s.state.PendingTokio? {
      CompleteKeepsAgreed(s, Ready(Converted(Failure(e))), DoClose(s, e).workers[|s.workers|]);
    }
  }

  lemma ResolveKeepsAgreed(s: System, result: ReadyResult)
    requires s.lock.phase == PhaseOf(s.state) && Agreed(s)
    ensures Agreed(DoResolve(s, result))
  {
    if s.state.PendingTokio? {
      CompleteKeepsAgreed(s, Ready(result), DoResolve(s, result).workers[|s.workers|]);
    }
  }

  lemma AddCallbackKeepsAgreed(s: System, k: CallbackKind, c: Outcome)
    requires s.lock.phase == PhaseOf(s.state) && Agreed(s)
    ensures Agreed(DoAddCallback(s, k, c))
  {
    if s.state.Ready? {
      ReadKeepsAgreed(s, c);
    } else if !s.state.Panicked? {
      CompleteKeepsAgreed(s, DoAddCallback(s, k, c).state, []);
    }
  }

  /** Every reader, callback and callback passed over of a future sees one and the same
      outcome, however late the result is converted, over every run. */
  lemma {:induction false} EverybodySeesOneOutcome(r: Run)
    requires Possible(r)
    ensures Agreed(StateOf(r))
  {
    if r.Then? {
      EverybodySeesOneOutcome(r.before);
      StepKeepsAgreed(StateOf(r.before), r.step);
    }
  }

  // --------------------------------------------------------------------------------- callbacks

  ghost function ActionHolds(cb: nat): Action -> int {
    (a: Action) => if a.FireReady? || a.Fire? then multiset(a.cbs)[cb] else 0
  }

  ghost function ThreadHolds(cb: nat): seq<Action> -> int {
    (todo: seq<Action>) => Sum(todo, ActionHolds(cb))
  }

  ghost function IsCallOf(cb: nat): Call -> int {
    (c: Call) => if c.cb == cb then 1 else 0
  }

  ghost function Queued(state: FutureState, cb: nat): int {
    if state.PendingTokio? then multiset(state.callbacks)[cb] else 0
  }

  /** In how many places `cb` is: queued, with a thread that fires, called, or passed over. */
  ghost function Places(s: System, cb: nat): int {
    Queued(s.state, cb)
    + Sum(s.workers, ThreadHolds(cb))
    + Sum(s.calls, IsCallOf(cb))
    + Sum(s.passed, IsCallOf(cb))
  }

  /** Every registered callback is in exactly one place, and nothing else is anywhere. */
  ghost predicate InOnePlace(s: System, cb: nat) {
    Places(s, cb) == if cb < |s.kinds| then 1 else 0
  }

  /** What replacing a thread's list, or adding one, does to the count. */
  lemma NewThread(s: System, todo: seq<Action>, cb: nat)
    ensures Sum(s.workers + [todo], ThreadHolds(cb)) == Sum(s.workers, ThreadHolds(cb)) + Sum(todo, ActionHolds(cb))
  {
    SumAppend(s.workers, todo, ThreadHolds(cb));
  }

  lemma Held(cb: nat, a: Action, rest: seq<Action>)
    ensures Sum([a] + rest, ActionHolds(cb)) == ActionHolds(cb)(a) + Sum(rest, ActionHolds(cb))
  {
    assert ([a] + rest)[1..] == rest;
  }

  lemma ThreeHeld(cb: nat, a: Action, b: Action, c: Action)
    ensures Sum([a, b, c], ActionHolds(cb)) == ActionHolds(cb)(a) + ActionHolds(cb)(b) + ActionHolds(cb)(c)
    ensures Sum([a, b], ActionHolds(cb)) == ActionHolds(cb)(a) + ActionHolds(cb)(b)
    ensures Sum([a], ActionHolds(cb)) == ActionHolds(cb)(a)
  {
    assert [a, b, c] == [a] + [b, c] && [b, c] == [b] + [c] && [c] == [c] + [] && [a, b] == [a] + [b]
        && [a] == [a] + [] && [b] == [b] + [];
    Held(cb, a, [b, c]);
    Held(cb, b, [c]);
    Held(cb, c, []);
    Held(cb, a, [b]);
    Held(cb, b, []);
    Held(cb, a, []);
  }

  lemma ThrowKeepsPlaces(s: System, e: nat, cb: nat)
    requires s.lock.phase == PhaseOf(s.state) && InOnePlace(s, cb)
    ensures InOnePlace(DoThrow(s, e), cb)
  {
    if s.state.PendingTokio? {
      var k := |s.lock.notifications|;
      var fire := Fire(s.state.callbacks, Failure(e));
      NewThread(s, [Wake, NotifyWaiters(k), fire], cb);
      ThreeHeld(cb, Wake, NotifyWaiters(k), fire);
    }
  }

  lemma CloseKeepsPlaces(s: System, e: nat, cb: nat)
    requires s.lock.phase == PhaseOf(s.state) && InOnePlace(s, cb)
    ensures InOnePlace(DoClose(s, e), cb)
  {
    if s.state.PendingTokio? {
      var k := |s.lock.notifications|;
      var fire := Fire(s.state.callbacks, Failure(e));
      NewThread(s, [NotifyWaiters(k), Wake, fire], cb);
      ThreeHeld(cb, NotifyWaiters(k), Wake, fire);
    } else if s.state.PendingAsyncio? {
      NewThread(s, [Wake], cb);
      ThreeHeld(cb, Wake, Wake, Wake);
    }
  }

  lemma ResolveKeepsPlaces(s: System, result: ReadyResult, cb: nat)
    requires s.lock.phase == PhaseOf(s.state) && InOnePlace(s, cb)
    ensures InOnePlace(DoResolve(s, result), cb)
  {
    if s.state.PendingTokio? {
      var k, cbs := |s.lock.notifications|, s.state.callbacks;
      var wake := [Wake, NotifyWaiters(k)];
      ThreeHeld(cb, Wake, NotifyWaiters(k), Wake);
      if cbs == [] {
        assert [] + wake == wake;
        NewThread(s, wake, cb);
      } else {
        Held(cb, FireReady(cbs), wake);
        NewThread(s, [FireReady(cbs)] + wake, cb);
      }
    }
  }

  lemma AddCallbackKeepsPlaces(s: System, k: CallbackKind, c: Outcome, cb: nat)
    requires s.lock.phase == PhaseOf(s.state) && InOnePlace(s, cb)
    ensures InOnePlace(DoAddCallback(s, k, c), cb)
  {
    if s.state.Ready? {
      var fire := Fire([|s.kinds|], Read(s, c).1);
      NewThread(s, [fire], cb);
      ThreeHeld(cb, fire, fire, fire);
    }
  }

  /** The first action of thread `w` is replaced by `todo`. */
  lemma ThreadMoved(s: System, w: nat, todo: seq<Action>, cb: nat)
    requires w < |s.workers| && s.workers[w] != []
    ensures Sum(s.workers[w := todo + s.workers[w][1..]], ThreadHolds(cb))
            == Sum(s.workers, ThreadHolds(cb)) - ActionHolds(cb)(s.workers[w][0])
               + Sum(todo + s.workers[w][1..], ActionHolds(cb)) - Sum(s.workers[w][1..], ActionHolds(cb))
  {
    assert s.workers[w] == [s.workers[w][0]] + s.workers[w][1..];
    Held(cb, s.workers[w][0], s.workers[w][1..]);
    SumUpdate(s.workers, w, todo + s.workers[w][1..], ThreadHolds(cb));
  }

  lemma FireKeepsPlaces(s: System, w: nat, cb: nat)
    requires w < |s.workers| && s.workers[w] != [] && s.workers[w][0].Fire? && InOnePlace(s, cb)
    ensures InOnePlace(DoFire(s, w), cb)
  {
    var Fire(cbs, outcome) := s.workers[w][0];
    var rest := s.workers[w][1..];
    if cbs == [] {
      assert [] + rest == rest;
      ThreadMoved(s, w, [], cb);
    } else {
      assert cbs == [cbs[0]] + cbs[1..];
      ThreadMoved(s, w, [Fire(cbs[1..], outcome)], cb);
      Held(cb, Fire(cbs[1..], outcome), rest);
      SumAppend(s.calls, Call(cbs[0], outcome), IsCallOf(cb));
      SumAppend(s.passed, Call(cbs[0], outcome), IsCallOf(cb));
    }
  }

  lemma FireReadyKeepsPlaces(s: System, w: nat, c: Outcome, n: Notice, cb: nat)
    requires w < |s.workers| && s.workers[w] != [] && s.workers[w][0].FireReady? && InOnePlace(s, cb)
    ensures InOnePlace(DoWork(s, w, c, n), cb)
  {
    if s.state.Ready? {
      var fire := Fire(s.workers[w][0].cbs, Read(s, c).1);
      ThreadMoved(s, w, [fire], cb);
      Held(cb, fire, s.workers[w][1..]);
    }
  }

  lemma WakeKeepsPlaces(s: System, w: nat, c: Outcome, n: Notice, cb: nat)
    requires w < |s.workers| && s.workers[w] != [] && s.workers[w][0].Wake? && InOnePlace(s, cb)
    ensures InOnePlace(DoWork(s, w, c, n), cb)
  {
    var rest := s.workers[w][1..];
    if s.slot.Parked? {
      ThreadMoved(s, w, [Deliver(s.slot.future)], cb);
      Held(cb, Deliver(s.slot.future), rest);
    } else {
      ThreadMoved(s, w, [], cb);
      assert [] + rest == rest;
    }
  }

  lemma DeliverKeepsPlaces(s: System, w: nat, c: Outcome, n: Notice, cb: nat)
    requires w < |s.workers| && s.workers[w] != [] && s.workers[w][0].Deliver? && InOnePlace(s, cb)
    ensures InOnePlace(DoWork(s, w, c, n), cb)
  {
    var rest := s.workers[w][1..];
    if s.batcher.armed {
      ThreadMoved(s, w, [], cb);
      assert [] + rest == rest;
    } else {
      ThreadMoved(s, w, [NotifyLoop], cb);
      Held(cb, NotifyLoop, rest);
    }
  }

  lemma WorkKeepsPlaces(s: System, w: nat, c: Outcome, n: Notice, cb: nat)
    requires w < |s.workers| && s.workers[w] != [] && InOnePlace(s, cb)
    ensures InOnePlace(DoWork(s, w, c, n), cb)
  {
    match s.workers[w][0]
    case FireReady(_) => FireReadyKeepsPlaces(s, w, c, n, cb);
    case Fire(_, _) => FireKeepsPlaces(s, w, cb);
    case Wake => WakeKeepsPlaces(s, w, c, n, cb);
    case Deliver(_) => DeliverKeepsPlaces(s, w, c, n, cb);
    case _ =>
      ThreadMoved(s, w, [], cb);
      assert [] + s.workers[w][1..] == s.workers[w][1..];
  }

  lemma StepKeepsPlaces(s: System, step: Step, cb: nat)
    requires CanStep(s, step) && Sound(s) && InOnePlace(s, cb)
    ensures InOnePlace(Next(s, step), cb)
  {
    match step
    case Throw(e) => ThrowKeepsPlaces(s, e, cb);
    case OutsiderThrows(e) => ThrowKeepsPlaces(s, e, cb);
    case Close(e) => CloseKeepsPlaces(s, e, cb);
    case AddCallback(k, c) => AddCallbackKeepsPlaces(s, k, c, cb);
    case ResolveTask(raw) => ResolveKeepsPlaces(s.(task := Some(Signalled)), Unconverted(raw), cb);
    case DropTask =>
      if s.task != Some(Unpolled) { ResolveKeepsPlaces(s.(task := Some(Signalled)), Converted(Failure(DROPPED)), cb); }
    case Work(w, c, n) => WorkKeepsPlaces(s, w, c, n, cb);
    case StrayWake =>
      NewThread(s, [Wake], cb);
      ThreeHeld(cb, Wake, Wake, Wake);
    case ForeignPush =>
      NewThread(s, [Deliver(s.futures)], cb);
      ThreeHeld(cb, Deliver(s.futures), Wake, Wake);
    case _ =>
  }

  lemma {:induction false} EveryCallbackIsInOnePlace(r: Run, cb: nat)
    requires Possible(r)
    ensures InOnePlace(StateOf(r), cb)
  {
    if r.Then? {
      EveryCallbackIsInOnePlace(r.before, cb);
      StepKeepsPlaces(StateOf(r.before), r.step, cb);
    }
  }

  /** A callback for success is called for a success only, one for errors for an error only;
      passed over is only what is for the other outcome. */
  ghost predicate CallsFit(s: System) {
    && (forall i :: 0 <= i < |s.calls| ==> CallFits(s.kinds, s.calls[i]))
    && (forall i :: 0 <= i < |s.passed| ==> PassFits(s.kinds, s.passed[i]))
  }

  /** A callback a thread is about to deal with is a registered one. */
  lemma HeldIsRegistered(s: System, w: nat)
    requires w < |s.workers| && s.workers[w] != [] && s.workers[w][0].Fire? && s.workers[w][0].cbs != []
    requires InOnePlace(s, s.workers[w][0].cbs[0])
    ensures s.workers[w][0].cbs[0] < |s.kinds|
  {
    var a, cb := s.workers[w][0], s.workers[w][0].cbs[0];
    assert a.cbs == [cb] + a.cbs[1..];
    SumNonNegative(s.calls, IsCallOf(cb));
    SumNonNegative(s.passed, IsCallOf(cb));
    forall todo: seq<Action> ensures ThreadHolds(cb)(todo) >= 0 {
      SumNonNegative(todo, ActionHolds(cb));
    }
    SumAtLeast(s.workers, w, ThreadHolds(cb));
    SumAtLeast(s.workers[w], 0, ActionHolds(cb));
  }

  ghost predicate CallFits(kinds: seq<CallbackKind>, c: Call) {
    c.cb < |kinds| && (kinds[c.cb].OnSuccess? ==> c.outcome.Success?) && (kinds[c.cb].OnError? ==> c.outcome.Failure?)
  }

  ghost predicate PassFits(kinds: seq<CallbackKind>, c: Call) {
    && c.cb < |kinds| && !kinds[c.cb].OnDone?
    && (kinds[c.cb].OnSuccess? ==> c.outcome.Failure?) && (kinds[c.cb].OnError? ==> c.outcome.Success?)
  }

  lemma FireKeepsFit(s: System, w: nat)
    requires w < |s.workers| && s.workers[w] != [] && s.workers[w][0].Fire? && CallsFit(s)
    requires s.workers[w][0].cbs != [] ==> s.workers[w][0].cbs[0] < |s.kinds|
    ensures CallsFit(DoFire(s, w))
  {
  }

  /** Only firing calls or passes over, and a kind once registered stays. */
  lemma OtherStepsKeepFit(s: System, step: Step)
    requires CanStep(s, step) && Sound(s) && CallsFit(s)
    requires !(step.Work? && s.workers[step.worker][0].Fire?)
    ensures CallsFit(Next(s, step))
  {
    var s' := Next(s, step);
    assert s'.calls == s.calls && s'.passed == s.passed && s.kinds <= s'.kinds;
  }

  lemma {:induction false} EveryCallFits(r: Run)
    requires Possible(r)
    ensures CallsFit(StateOf(r))
  {
    if r.Then? {
      EveryCallFits(r.before);
      var s := StateOf(r.before);
      if r.step.Work? && s.workers[r.step.worker][0].Fire? {
        if s.workers[r.step.worker][0].cbs != [] {
          EveryCallbackIsInOnePlace(r.before, s.workers[r.step.worker][0].cbs[0]);
          HeldIsRegistered(s, r.step.worker);
        }
        FireKeepsFit(s, r.step.worker);
      } else {
        OtherStepsKeepFit(s, r.step);
      }
    }
  }

  ghost function Calls(s: System, cb: nat): int {
    Sum(s.calls, IsCallOf(cb))
  }

  ghost predicate Quiet(s: System) {
    forall w :: 0 <= w < |s.workers| ==> s.workers[w] == []
  }

  lemma CountsAreNotNegative(s: System, cb: nat)
    ensures Sum(s.workers, ThreadHolds(cb)) >= 0 && Sum(s.calls, IsCallOf(cb)) >= 0 && Sum(s.passed, IsCallOf(cb)) >= 0
  {
    forall todo: seq<Action> ensures ThreadHolds(cb)(todo) >= 0 {
      SumNonNegative(todo, ActionHolds(cb));
    }
    SumNonNegative(s.workers, ThreadHolds(cb));
    SumNonNegative(s.calls, IsCallOf(cb));
    SumNonNegative(s.passed, IsCallOf(cb));
  }

  /** However completion, drop, close, cancel, throw and registration race: no callback is
      called twice, and once the future is done and the threads are, each callback for success
      has been called once if it succeeded and not at all if not, each for errors the other way
      round, and each for any outcome once. */
  lemma CallbacksAreCalledOnce(r: Run, cb: nat)
    requires Possible(r)
    ensures Calls(StateOf(r), cb) <= 1
    ensures var s := StateOf(r); s.state.Ready? && Quiet(s) && cb < |s.kinds| ==>
              && s.state.result.Converted?
              && (s.kinds[cb].OnSuccess? ==> Calls(s, cb) == if s.state.result.outcome.Success? then 1 else 0)
              && (s.kinds[cb].OnError? ==> Calls(s, cb) == if s.state.result.outcome.Failure? then 1 else 0)
              && (s.kinds[cb].OnDone? ==> Calls(s, cb) == 1)
  {
    EveryCallbackIsInOnePlace(r, cb);
    EveryCallFits(r);
    EverybodySeesOneOutcome(r);
    var s := StateOf(r);
    CountsAreNotNegative(s, cb);
    if s.state.Ready? && Quiet(s) && cb < |s.kinds| {
      SumZero(s.workers, ThreadHolds(cb));
      if Sum(s.calls, IsCallOf(cb)) > 0 {
        var i := SumWitness(s.calls, IsCallOf(cb));
      } else {
        var i := SumWitness(s.passed, IsCallOf(cb));
      }
    }
  }
}
