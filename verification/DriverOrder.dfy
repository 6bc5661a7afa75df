/** The callbacks registered on a `DriverFuture` before it finished are called in the order they
    were registered, whoever finishes it. */
module DriverOrder {
  import opened Batcher
  import opened DriverProtocol
  import opened DriverResult

  /** The callbacks a thread has still to deal with, in order. */
  ghost function Held(todo: seq<Action>): seq<nat> {
    if todo == [] then [] else HeldBy(todo[0]) + Held(todo[1..])
  }

  ghost function HeldBy(a: Action): seq<nat> {
    if a.Fire? || a.FireReady? then a.cbs else []
  }

  /** How many callbacks were registered before the future finished, from the steps. */
  ghost function Batch(r: Run): nat {
    if r.Begun? then 0 else if Given(r.before).Some? then Batch(r.before) else |Registered(r)|
  }

  ghost function UpTo(n: nat): (cbs: seq<nat>)
    ensures |cbs| == n && forall i :: 0 <= i < n ==> cbs[i] == i
  {
    seq(n, i requires 0 <= i => i)
  }

  ghost predicate Rising(cbs: seq<nat>) {
    forall i, j :: 0 <= i < j < |cbs| ==> cbs[i] < cbs[j]
  }

  /** Registered after the end. */
  ghost predicate Late(cbs: seq<nat>, n: nat) {
    forall i :: 0 <= i < |cbs| ==> cbs[i] >= n
  }

  /** Of the first `n` callbacks, those called come before those in `cbs`. */
  ghost predicate CalledBefore(calls: seq<Call>, cbs: seq<nat>, n: nat) {
    forall k, i :: 0 <= k < |calls| && calls[k].cb < n && 0 <= i < |cbs| ==> calls[k].cb < cbs[i]
  }

  ghost predicate CallsRise(calls: seq<Call>, n: nat) {
    forall i, j :: 0 <= i < j < |calls| && calls[i].cb < n && calls[j].cb < n ==> calls[i].cb < calls[j].cb
  }

  /** Thread `w` has late callbacks only, or it is the one that has the others, in order. */
  ghost predicate InTurn(workers: seq<seq<Action>>, calls: seq<Call>, w: nat, n: nat)
    requires w < |workers|
  {
    var cbs := Held(workers[w]);
    || Late(cbs, n)
    || (Rising(cbs) && CalledBefore(calls, cbs, n)
        && forall v: nat :: v < |workers| && v != w ==> Late(Held(workers[v]), n))
  }

  ghost predicate Ordered(s: System, n: nat) {
    if s.state.Ready? then
      && n <= |s.kinds| && CallsRise(s.calls, n)
      && forall w: nat :: w < |s.workers| ==> InTurn(s.workers, s.calls, w, n)
    else
      && n == |s.kinds| && s.calls == [] && (forall w: nat :: w < |s.workers| ==> Held(s.workers[w]) == [])
      && (if s.state.PendingTokio? then s.state.callbacks == UpTo(n) else n == 0)
  }

  lemma HeldInTurn(a: Action, rest: seq<Action>)
    ensures Held([a] + rest) == HeldBy(a) + Held(rest)
  {
    assert ([a] + rest)[1..] == rest;
  }

  lemma HeldByOne(a: Action)
    ensures Held([a]) == HeldBy(a)
  {
    assert [a] == [a] + [];
    HeldInTurn(a, []);
  }

  lemma HeldByTwo(a: Action, b: Action)
    ensures Held([a, b]) == HeldBy(a) + HeldBy(b)
  {
    HeldByOne(b);
    assert [a, b] == [a] + [b];
    HeldInTurn(a, [b]);
  }

  lemma HeldByThree(a: Action, b: Action, c: Action)
    ensures Held([a, b, c]) == HeldBy(a) + (HeldBy(b) + HeldBy(c))
  {
    HeldByTwo(b, c);
    assert [a, b, c] == [a] + [b, c];
    HeldInTurn(a, [b, c]);
  }

  /** The threads hold what they held, and a new one nothing but late callbacks. */
  ghost predicate HoldTheSame(before: seq<seq<Action>>, after: seq<seq<Action>>, n: nat) {
    && |before| <= |after|
    && (forall w: nat :: w < |before| ==> Held(after[w]) == Held(before[w]))
    && (forall w: nat :: |before| <= w < |after| ==> Late(Held(after[w]), n))
  }

  lemma SameIsOrdered(s: System, s': System, n: nat)
    requires Ordered(s, n) && s.state.Ready? && s'.state.Ready? && s'.calls == s.calls
    requires |s.kinds| <= |s'.kinds| && HoldTheSame(s.workers, s'.workers, n)
    ensures Ordered(s', n)
  {
    forall w: nat | w < |s'.workers| ensures InTurn(s'.workers, s'.calls, w, n) {
      if w < |s.workers| {
        assert InTurn(s.workers, s.calls, w, n);
      }
    }
  }

  /** Before the end nobody holds any. */
  lemma NoneIsOrdered(s: System, s': System, n: nat)
    requires Ordered(s, n) && !s.state.Ready? && !s'.state.Ready? && s'.calls == s.calls && s'.kinds == s.kinds
    requires |s.workers| <= |s'.workers|
    requires forall w: nat :: w < |s.workers| ==> Held(s'.workers[w]) == Held(s.workers[w])
    requires forall w: nat :: |s.workers| <= w < |s'.workers| ==> Held(s'.workers[w]) == []
    requires if s'.state.PendingTokio? then s'.state.callbacks == UpTo(n) else n == 0
    ensures Ordered(s', n)
  {
  }

  /** Whoever finishes the future gets all that were registered. */
  lemma EndIsOrdered(s: System, s': System, n: nat)
    requires Ordered(s, n) && !s.state.Ready? && s'.state.Ready? && s'.calls == s.calls && s'.kinds == s.kinds
    requires |s.workers| <= |s'.workers| <= |s.workers| + 1
    requires forall w: nat :: w < |s.workers| ==> Held(s'.workers[w]) == Held(s.workers[w])
    requires |s'.workers| > |s.workers| ==> Rising(Held(s'.workers[|s.workers|]))
    ensures Ordered(s', n)
  {
    forall w: nat | w < |s'.workers| ensures InTurn(s'.workers, s'.calls, w, n) {
    }
  }

  lemma ThrowIsOrdered(s: System, e: nat, n: nat)
    requires s.lock.phase == PhaseOf(s.state) && Ordered(s, n)
    ensures Ordered(DoThrow(s, e), n)
  {
    if s.state.PendingTokio? {
      HeldByThree(Wake, NotifyWaiters(|s.lock.notifications|), Fire(s.state.callbacks, Failure(e)));
      EndIsOrdered(s, DoThrow(s, e), n);
    } else if s.state.PendingAsyncio? {
      EndIsOrdered(s, DoThrow(s, e), n);
    }
  }

  lemma CloseIsOrdered(s: System, e: nat, n: nat)
    requires s.lock.phase == PhaseOf(s.state) && Ordered(s, n)
    ensures Ordered(DoClose(s, e), n)
  {
    if s.state.PendingTokio? {
      HeldByThree(NotifyWaiters(|s.lock.notifications|), Wake, Fire(s.state.callbacks, Failure(e)));
      EndIsOrdered(s, DoClose(s, e), n);
    } else if s.state.PendingAsyncio? {
      HeldByOne(Wake);
      EndIsOrdered(s, DoClose(s, e), n);
    }
  }

  lemma ResolveIsOrdered(s: System, result: ReadyResult, n: nat)
    requires s.lock.phase == PhaseOf(s.state) && Ordered(s, n)
    ensures Ordered(DoResolve(s, result), n)
  {
    if s.state.PendingTokio? {
      var cbs, notify := s.state.callbacks, NotifyWaiters(|s.lock.notifications|);
      HeldByTwo(Wake, notify);
      HeldInTurn(FireReady(cbs), [Wake, notify]);
      assert [] + [Wake, notify] == [Wake, notify];
      EndIsOrdered(s, DoResolve(s, result), n);
    }
  }

  lemma AddCallbackIsOrdered(s: System, k: CallbackKind, c: Outcome, n: nat)
    requires s.lock.phase == PhaseOf(s.state) && Ordered(s, n) && !s.state.Panicked?
    ensures Ordered(DoAddCallback(s, k, c), if s.state.Ready? then n else n + 1)
  {
    var s' := DoAddCallback(s, k, c);
    if s.state.Ready? {
      var fire := Fire([|s.kinds|], Read(s, c).1);
      HeldByOne(fire);
      SameIsOrdered(s, s', n);
    } else {
      assert UpTo(n + 1) == UpTo(n) + [n];
      assert s.state.PendingAsyncio? ==> UpTo(n) == [];
    }
  }

  /** The first action of thread `w` is replaced by one that holds the same, or none. */
  lemma MovedHoldsTheSame(s: System, w: nat, instead: seq<Action>, n: nat)
    requires w < |s.workers| && s.workers[w] != [] && |instead| <= 1
    requires (if instead == [] then [] else HeldBy(instead[0])) == HeldBy(s.workers[w][0])
    ensures HoldTheSame(s.workers, s.workers[w := instead + s.workers[w][1..]], n)
  {
    var rest := s.workers[w][1..];
    assert s.workers[w] == [s.workers[w][0]] + rest;
    HeldInTurn(s.workers[w][0], rest);
    if instead == [] {
      assert instead + rest == rest;
    } else {
      assert instead == [instead[0]];
      HeldInTurn(instead[0], rest);
    }
  }

  /** The next callback in the thread's list is dealt with. */
  lemma FireIsOrdered(s: System, w: nat, n: nat)
    requires w < |s.workers| && s.workers[w] != [] && s.workers[w][0].Fire? && s.workers[w][0].cbs != []
    requires s.state.Ready? && Ordered(s, n)
    ensures Ordered(DoFire(s, w), n)
  {
    var Fire(cbs, outcome) := s.workers[w][0];
    var rest, s' := s.workers[w][1..], DoFire(s, w);
    assert s.workers[w] == [s.workers[w][0]] + rest;
    HeldInTurn(s.workers[w][0], rest);
    HeldInTurn(Fire(cbs[1..], outcome), rest);
    var held := Held(s.workers[w]);
    assert held[0] == cbs[0] && Held(s'.workers[w]) == held[1..];
    assert InTurn(s.workers, s.calls, w, n);
    FiredIsInTurn(s, s', w, n);
  }

  lemma FiredIsInTurn(s: System, s': System, w: nat, n: nat)
    requires Ordered(s, n) && s.state.Ready? && s'.state.Ready? && s'.kinds == s.kinds
    requires w < |s.workers| == |s'.workers| && Held(s.workers[w]) != [] && InTurn(s.workers, s.calls, w, n)
    requires forall v: nat :: v < |s.workers| && v != w ==> s'.workers[v] == s.workers[v]
    requires var held := Held(s.workers[w]);
             && Held(s'.workers[w]) == held[1..]
             && (s'.calls == s.calls || exists o :: s'.calls == s.calls + [Call(held[0], o)])
    ensures Ordered(s', n)
  {
    var held := Held(s.workers[w]);
    assert CallsRise(s'.calls, n);
    forall v: nat | v < |s'.workers| ensures InTurn(s'.workers, s'.calls, v, n) {
      if v != w {
        assert InTurn(s.workers, s.calls, v, n);
        assert held[0] < n ==> Late(Held(s.workers[v]), n);
      }
    }
  }

  lemma WorkIsOrdered(s: System, w: nat, c: Outcome, notice: Notice, n: nat)
    requires w < |s.workers| && s.workers[w] != [] && Ordered(s, n)
    ensures Ordered(DoWork(s, w, c, notice), n)
  {
    var s', rest := DoWork(s, w, c, notice), s.workers[w][1..];
    assert s.workers[w] == [s.workers[w][0]] + rest;
    HeldInTurn(s.workers[w][0], rest);
    assert [] + rest == rest;
    match s.workers[w][0]
    case Fire(cbs, outcome) =>
      if cbs != [] {
        FireIsOrdered(s, w, n);
      } else {
        MovedHoldsTheSame(s, w, [], n);
        KeptIsOrdered(s, s', n);
      }
    case FireReady(cbs) =>
      if s.state.Ready? {
        MovedHoldsTheSame(s, w, [Fire(cbs, Read(s, c).1)], n);
        SameIsOrdered(s, s', n);
      }
    case Wake =>
      MovedHoldsTheSame(s, w, if s.slot.Parked? then [Deliver(s.slot.future)] else [], n);
      KeptIsOrdered(s, s', n);
    case Deliver(_) =>
      MovedHoldsTheSame(s, w, if s.batcher.armed then [] else [NotifyLoop], n);
      KeptIsOrdered(s, s', n);
    case _ =>
      MovedHoldsTheSame(s, w, [], n);
      KeptIsOrdered(s, s', n);
  }

  lemma KeptIsOrdered(s: System, s': System, n: nat)
    requires Ordered(s, n) && s'.state == s.state && s'.calls == s.calls && s'.kinds == s.kinds
    requires |s'.workers| == |s.workers| && HoldTheSame(s.workers, s'.workers, n)
    ensures Ordered(s', n)
  {
    if s.state.Ready? {
      SameIsOrdered(s, s', n);
    } else {
      NoneIsOrdered(s, s', n);
    }
  }

  /** Threads that are added to wake somebody hold no callbacks. */
  lemma WokenIsOrdered(s: System, a: Action, n: nat)
    requires Ordered(s, n) && HeldBy(a) == []
    ensures Ordered(s.(workers := s.workers + [[a]]), n)
  {
    HeldByOne(a);
    var s' := s.(workers := s.workers + [[a]]);
    if s.state.Ready? {
      SameIsOrdered(s, s', n);
    } else {
      NoneIsOrdered(s, s', n);
    }
  }

  /** A step that leaves threads, calls and registrations alone, and does not end the future. */
  lemma QuietIsOrdered(s: System, s': System, n: nat)
    requires Ordered(s, n) && s'.workers == s.workers && s'.calls == s.calls && s'.kinds == s.kinds
    requires s'.state.Ready? == s.state.Ready?
    requires s.state.PendingTokio? ==> s'.state == s.state
    requires !s.state.PendingTokio? && s'.state.PendingTokio? ==> s'.state.callbacks == []
    ensures Ordered(s', n)
  {
    if s.state.Ready? {
      SameIsOrdered(s, s', n);
    } else {
      assert UpTo(0) == [];
      NoneIsOrdered(s, s', n);
    }
  }

  predicate IsQuiet(step: Step) {
    match step
    case Poll(_) => true
    case ParkNow => true
    case InnerPending => true
    case Resume => true
    case CancelParked => true
    case StartOnTokio => true
    case AskResult(_) => true
    case ReadOutcome(_) => true
    case WaiterMoves(_) => true
    case PollTask => true
    case OnLoop(_) => true
    case _ => false
  }

  lemma QuietStepIsOrdered(s: System, step: Step, n: nat)
    requires CanStep(s, step) && Sound(s) && Ordered(s, n) && IsQuiet(step)
    ensures Ordered(Next(s, step), n)
  {
    QuietIsOrdered(s, Next(s, step), n);
  }

  /** The task completes, or is dropped. */
  lemma TaskEndIsOrdered(s: System, step: Step, n: nat)
    requires CanStep(s, step) && Sound(s) && Ordered(s, n) && (step.ResolveTask? || step.DropTask?)
    ensures Ordered(Next(s, step), n)
  {
    var s' := Next(s, step);
    var s1 := s.(task := s'.task);
    assert Ordered(s1, n);
    if s'.state != s.state {
      ResolveIsOrdered(s1, s'.state.result, n);
    }
  }

  lemma UserEndIsOrdered(s: System, step: Step, n: nat)
    requires CanStep(s, step) && Sound(s) && Ordered(s, n) && (step.Throw? || step.OutsiderThrows? || step.Close?)
    ensures Ordered(Next(s, step), n)
  {
    if step.Close? {
      CloseIsOrdered(s, step.error, n);
    } else {
      ThrowIsOrdered(s, step.error, n);
    }
  }

  lemma StepIsOrdered(s: System, step: Step, n: nat)
    requires CanStep(s, step) && Sound(s) && Ordered(s, n)
    ensures Ordered(Next(s, step), if step.AddCallback? && !s.state.Ready? then n + 1 else n)
  {
    match step
    case InnerReady(_) => EndIsOrdered(s, Next(s, step), n);
    case Throw(_) => UserEndIsOrdered(s, step, n);
    case OutsiderThrows(_) => UserEndIsOrdered(s, step, n);
    case Close(_) => UserEndIsOrdered(s, step, n);
    case AddCallback(k, c) => AddCallbackIsOrdered(s, k, c, n);
    case ResolveTask(_) => TaskEndIsOrdered(s, step, n);
    case DropTask => TaskEndIsOrdered(s, step, n);
    case Work(w, c, notice) => WorkIsOrdered(s, w, c, notice, n);
    case StrayWake => WokenIsOrdered(s, Wake, n);
    case ForeignPush =>
      WokenIsOrdered(s, Deliver(s.futures), n);
    case _ => QuietStepIsOrdered(s, step, n);
  }

  lemma {:induction false} EveryRunIsOrdered(r: Run)
    requires Possible(r)
    ensures Ordered(StateOf(r), Batch(r))
  {
    if r.Then? {
      EveryRunIsOrdered(r.before);
      StepIsOrdered(StateOf(r.before), r.step, Batch(r.before));
      EveryRunHasWhatWasGiven(r.before);
      EveryCallbackIsKept(r.before);
      EveryCallbackIsKept(r);
      if Given(r.before).None? {
        assert Batch(r.before) == |StateOf(r.before).kinds|;
      }
    }
  }

  /** Over every run: of the callbacks registered before the future finished, an earlier one is
      called before a later one. */
  lemma CallbacksAreCalledInOrder(r: Run, i: nat, j: nat)
    requires Possible(r) && i < j < |StateOf(r).calls|
    requires StateOf(r).calls[i].cb < Batch(r) && StateOf(r).calls[j].cb < Batch(r)
    ensures StateOf(r).calls[i].cb < StateOf(r).calls[j].cb
  {
    EveryRunIsOrdered(r);
  }
}
