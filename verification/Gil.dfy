/** The two locks a wake-up goes through: the interpreter's lock (GIL) and the mutex around
    the batcher's queue. Pushes come from threads that hold the GIL and from threads that do
    not; the drain holds it. All of them take the mutex with a plain `lock()`. */
module Gil {
  datatype Instruction =
    | TakeGil
    | DropGil
    /** `state.lock()`, which waits without letting go of anything. */
    | LockState
    /** `state.lock_py_attached()`, which lets go of the GIL while it waits, and takes it
        back before returning. */
    | LockStateAttached
    | UnlockState

  /** How the first push of a batch got on with notifying the loop. */
  datatype Notifying =
    | NotFirst
    | ByPipe
    | ByCallSoon
    /** The loop is gone: after `call_soon` failed, the queue is discarded. */
    | Discarding

  datatype Call =
    | AttachedPush(notifying: Notifying)
    | DetachedPush(notifying: Notifying)
    /** `waits` is how often setting the futures let go of the GIL. */
    | Drain(waits: nat)

  function NotifyCode(attached: bool, n: Notifying): seq<Instruction> {
    var callSoon := if attached then [] else [TakeGil, DropGil];
    match n
    case NotFirst => []
    case ByPipe => []
    case ByCallSoon => callSoon
    case Discarding => callSoon + [LockState, UnlockState]
  }

  function WaitCode(waits: nat): seq<Instruction> {
    if waits == 0 then [DropGil] else [DropGil, TakeGil] + WaitCode(waits - 1)
  }

  /** What a call does to the two locks, the drain taking the mutex by `drainLock`. */
  function Code(c: Call, drainLock: Instruction): seq<Instruction> {
    match c
    case AttachedPush(n) => [TakeGil, LockState, UnlockState] + NotifyCode(true, n) + [DropGil]
    case DetachedPush(n) => [LockState, UnlockState] + NotifyCode(false, n)
    case Drain(waits) => [TakeGil, drainLock, UnlockState] + WaitCode(waits)
  }

  function Program(calls: seq<Call>, drainLock: Instruction): seq<Instruction> {
    if calls == [] then [] else Code(calls[0], drainLock) + Program(calls[1..], drainLock)
  }

  datatype Thread = Thread(todo: seq<Instruction>, gil: bool, state: bool)

  /** Nothing is done between taking the mutex and giving it back; in particular the GIL is
      not waited for. Every lock is given back. */
  predicate Disciplined(todo: seq<Instruction>, gil: bool, state: bool)
    decreases |todo|
  {
    if todo == [] then !gil && !state
    else
      match todo[0]
      case TakeGil => !gil && !state && Disciplined(todo[1..], true, state)
      case DropGil => gil && !state && Disciplined(todo[1..], false, state)
      case LockState => !state && Disciplined(todo[1..], gil, true)
      case LockStateAttached => false
      case UnlockState => state && Disciplined(todo[1..], gil, false)
  }

  predicate GilFree(ts: seq<Thread>) {
    forall t :: 0 <= t < |ts| ==> !ts[t].gil
  }

  predicate StateFree(ts: seq<Thread>) {
    forall t :: 0 <= t < |ts| ==> !ts[t].state
  }

  ghost predicate CanStep(ts: seq<Thread>, t: nat) {
    && t < |ts| && ts[t].todo != []
    && match ts[t].todo[0]
       case TakeGil => GilFree(ts)
       case LockState => StateFree(ts)
       case _ => true
  }

  function Moved(t: Thread, stateFree: bool): Thread
    requires t.todo != []
  {
    var rest := t.todo[1..];
    match t.todo[0]
    case TakeGil => Thread(rest, true, t.state)
    case DropGil => Thread(rest, false, t.state)
    case LockState => Thread(rest, t.gil, true)
    case LockStateAttached =>
      if stateFree then Thread(rest, t.gil, true) else Thread([LockState, TakeGil] + rest, false, t.state)
    case UnlockState => Thread(rest, t.gil, false)
  }

  ghost function Next(ts: seq<Thread>, t: nat): seq<Thread>
    requires CanStep(ts, t)
  {
    ts[t := Moved(ts[t], StateFree(ts))]
  }

  datatype Run =
    | Begun(threads: seq<seq<Call>>)
    | Then(before: Run, thread: nat)

  /** The threads as they start. */
  function Started(threads: seq<seq<Call>>, drainLock: Instruction): seq<Thread> {
    seq(|threads|, i requires 0 <= i < |threads| => Thread(Program(threads[i], drainLock), false, false))
  }

  ghost predicate Possible(r: Run, drainLock: Instruction)
    decreases r, 0
  {
    r.Then? ==> Possible(r.before, drainLock) && CanStep(ThreadsOf(r.before, drainLock), r.thread)
  }

  ghost function ThreadsOf(r: Run, drainLock: Instruction): seq<Thread>
    requires Possible(r, drainLock)
    decreases r, 1
  {
    match r
    case Begun(threads) => Started(threads, drainLock)
    case Then(before, t) => Next(ThreadsOf(before, drainLock), t)
  }

  // ------------------------------------------------------------------------ the calls' discipline

  lemma {:induction false} WaitsAreDisciplined(waits: nat, rest: seq<Instruction>)
    requires Disciplined(rest, false, false)
    ensures Disciplined(WaitCode(waits) + rest, true, false)
  {
    if waits == 0 {
      assert (WaitCode(waits) + rest)[1..] == rest;
    } else {
      WaitsAreDisciplined(waits - 1, rest);
      var todo := WaitCode(waits) + rest;
      assert todo[1..][1..] == WaitCode(waits - 1) + rest;
    }
  }

  lemma TailsAreDisciplined(attached: bool, n: Notifying, rest: seq<Instruction>)
    requires Disciplined(rest, attached, false)
    ensures Disciplined(NotifyCode(attached, n) + rest, attached, false)
  {
    var todo := NotifyCode(attached, n) + rest;
    if n.NotFirst? || n.ByPipe? || (n.ByCallSoon? && attached) {
      assert todo == rest;
    } else if n.ByCallSoon? || attached {
      assert todo[1..][1..] == rest;
    } else {
      assert todo[1..][1..][1..][1..] == rest;
      assert Disciplined(todo[1..][1..], false, false);
    }
  }

  lemma AttachedPushIsDisciplined(n: Notifying, rest: seq<Instruction>)
    requires Disciplined(rest, false, false)
    ensures Disciplined(Code(AttachedPush(n), LockState) + rest, false, false)
  {
    var todo := Code(AttachedPush(n), LockState) + rest;
    assert ([DropGil] + rest)[1..] == rest;
    TailsAreDisciplined(true, n, [DropGil] + rest);
    assert todo[1..][1..][1..] == NotifyCode(true, n) + ([DropGil] + rest);
    assert Disciplined(todo[1..], true, false);
  }

  lemma DrainIsDisciplined(waits: nat, rest: seq<Instruction>)
    requires Disciplined(rest, false, false)
    ensures Disciplined(Code(Drain(waits), LockState) + rest, false, false)
  {
    var todo := Code(Drain(waits), LockState) + rest;
    WaitsAreDisciplined(waits, rest);
    assert todo[1..][1..][1..] == WaitCode(waits) + rest;
    assert Disciplined(todo[1..], true, false);
  }

  lemma CallIsDisciplined(c: Call, rest: seq<Instruction>)
    requires Disciplined(rest, false, false)
    ensures Disciplined(Code(c, LockState) + rest, false, false)
  {
    match c
    case AttachedPush(n) => AttachedPushIsDisciplined(n, rest);
    case DetachedPush(n) =>
      TailsAreDisciplined(false, n, rest);
      assert (Code(c, LockState) + rest)[1..][1..] == NotifyCode(false, n) + rest;
    case Drain(waits) => DrainIsDisciplined(waits, rest);
  }

  lemma {:induction false} ProgramsAreDisciplined(calls: seq<Call>)
    ensures Disciplined(Program(calls, LockState), false, false)
  {
    if calls != [] {
      ProgramsAreDisciplined(calls[1..]);
      CallIsDisciplined(calls[0], Program(calls[1..], LockState));
    }
  }

  // --------------------------------------------------------------------------------- no deadlock

  /** Each lock has one holder at most, and every thread sticks to the discipline. */
  ghost predicate Orderly(ts: seq<Thread>) {
    && (forall t :: 0 <= t < |ts| ==> Disciplined(ts[t].todo, ts[t].gil, ts[t].state))
    && (forall t, u :: 0 <= t < |ts| && 0 <= u < |ts| && ts[t].gil && ts[u].gil ==> t == u)
    && (forall t, u :: 0 <= t < |ts| && 0 <= u < |ts| && ts[t].state && ts[u].state ==> t == u)
  }

  lemma StepKeepsOrder(ts: seq<Thread>, t: nat)
    requires Orderly(ts) && CanStep(ts, t)
    ensures Orderly(Next(ts, t))
  {
  }

  lemma {:induction false} EveryRunIsOrderly(r: Run)
    requires Possible(r, LockState)
    ensures Orderly(ThreadsOf(r, LockState))
  {
    match r
    case Begun(threads) =>
      forall t | 0 <= t < |threads| ensures Disciplined(Program(threads[t], LockState), false, false) {
        ProgramsAreDisciplined(threads[t]);
      }
    case Then(before, t) =>
      EveryRunIsOrderly(before);
      StepKeepsOrder(ThreadsOf(before, LockState), t);
  }

  /** A thread that holds the mutex gives it back next, whatever the others hold. */
  lemma HolderOfStateNeverWaits(r: Run, t: nat)
    requires Possible(r, LockState)
    requires t < |ThreadsOf(r, LockState)| && ThreadsOf(r, LockState)[t].state
    ensures CanStep(ThreadsOf(r, LockState), t) && ThreadsOf(r, LockState)[t].todo[0] == UnlockState
  {
    EveryRunIsOrderly(r);
  }

  /** As long as some thread is not through, some thread can go on. */
  lemma NeverStuck(r: Run, unfinished: nat) returns (t: nat)
    requires Possible(r, LockState)
    requires unfinished < |ThreadsOf(r, LockState)| && ThreadsOf(r, LockState)[unfinished].todo != []
    ensures CanStep(ThreadsOf(r, LockState), t)
  {
    EveryRunIsOrderly(r);
    var ts := ThreadsOf(r, LockState);
    if !StateFree(ts) {
      t :| 0 <= t < |ts| && ts[t].state;
    } else if !GilFree(ts) {
      t :| 0 <= t < |ts| && ts[t].gil;
    } else {
      t := unfinished;
    }
  }

  /** Instructions left. */
  function Left(ts: seq<Thread>): nat {
    if ts == [] then 0 else |ts[0].todo| + Left(ts[1..])
  }

  lemma {:induction false} LeftAfter(ts: seq<Thread>, t: nat, moved: Thread)
    requires t < |ts|
    ensures Left(ts[t := moved]) == Left(ts) - |ts[t].todo| + |moved.todo|
  {
    if t > 0 {
      LeftAfter(ts[1..], t - 1, moved);
      assert ts[t := moved][1..] == ts[1..][t - 1 := moved];
    } else {
      assert ts[t := moved][1..] == ts[1..];
    }
  }

  /** And they all get through: from any reachable state, the threads can only make so many
      more steps, and when none can go on, every program is over and both locks are free. */
  lemma {:induction false} EveryRunEnds(r: Run)
    requires Possible(r, LockState)
    ensures forall t: nat :: CanStep(ThreadsOf(r, LockState), t) ==>
        Left(Next(ThreadsOf(r, LockState), t)) == Left(ThreadsOf(r, LockState)) - 1
    ensures (forall t: nat :: !CanStep(ThreadsOf(r, LockState), t)) ==>
              && GilFree(ThreadsOf(r, LockState)) && StateFree(ThreadsOf(r, LockState))
              && (forall u :: 0 <= u < |ThreadsOf(r, LockState)| ==> ThreadsOf(r, LockState)[u].todo == [])
  {
    EveryRunIsOrderly(r);
    var ts := ThreadsOf(r, LockState);
    forall t: nat | CanStep(ts, t) ensures Left(Next(ts, t)) == Left(ts) - 1 {
      LeftAfter(ts, t, Moved(ts[t], StateFree(ts)));
    }
    if forall t: nat :: !CanStep(ts, t) {
      forall u | 0 <= u < |ts| ensures ts[u].todo == [] {
        if ts[u].todo != [] {
          var t := NeverStuck(r, u);
        }
      }
    }
  }

  // ------------------------------------------------------------------------ why the plain lock

  /** Had the drain let go of the GIL to wait for the mutex: a detached push holds the mutex,
      the drain waits for it without the GIL, a push that holds the GIL comes along. Once the
      drain has the mutex, each waits for the other's lock. */
  lemma AttachedDrainDeadlocks() returns (r: Run)
    ensures Possible(r, LockStateAttached)
    ensures var ts := ThreadsOf(r, LockStateAttached);
            (forall t: nat :: !CanStep(ts, t)) && exists t :: 0 <= t < |ts| && ts[t].todo != []
  {
    var calls := [[DetachedPush(NotFirst)], [Drain(0)], [AttachedPush(NotFirst)]];
    OneCall(DetachedPush(NotFirst), LockStateAttached);
    OneCall(Drain(0), LockStateAttached);
    OneCall(AttachedPush(NotFirst), LockStateAttached);
    assert Code(Drain(0), LockStateAttached) == [TakeGil, LockStateAttached, UnlockState, DropGil];
    assert Code(AttachedPush(NotFirst), LockStateAttached) == [TakeGil, LockState, UnlockState, DropGil];
    assert Code(DetachedPush(NotFirst), LockStateAttached) == [LockState, UnlockState];
    r := Begun(calls);
    assert ThreadsOf(r, LockStateAttached) == [PUSH, DRAIN, ATTACHED];
    assert [LockState, UnlockState][1..] == [UnlockState];
    r := GoesOn(r, 0, PUSH, DRAIN, ATTACHED, Thread([UnlockState], false, true));
    r := DrainWaits(r);
    r := DrainIsStuck(r);
    NobodyCanStep();
  }

  const PUSH := Thread([LockState, UnlockState], false, false)
  const DRAIN := Thread([TakeGil, LockStateAttached, UnlockState, DropGil], false, false)
  const WAITING := Thread([LockState, TakeGil, UnlockState, DropGil], false, false)
  const STUCK := Thread([TakeGil, UnlockState, DropGil], false, true)
  const ATTACHED := Thread([TakeGil, LockState, UnlockState, DropGil], false, false)
  const WITH_GIL := Thread([LockState, UnlockState, DropGil], true, false)
  const THROUGH := Thread([], false, false)

  lemma DrainWaits(r0: Run) returns (r: Run)
    requires Possible(r0, LockStateAttached)
    requires ThreadsOf(r0, LockStateAttached) == [Thread([UnlockState], false, true), DRAIN, ATTACHED]
    ensures Possible(r, LockStateAttached)
    ensures ThreadsOf(r, LockStateAttached) == [Thread([UnlockState], false, true), WAITING, ATTACHED]
  {
    var push, drain :=
        Thread([UnlockState], false, true), Thread([LockStateAttached, UnlockState, DropGil], true, false);
    assert DRAIN.todo[1..] == drain.todo;
    r := GoesOn(r0, 1, push, DRAIN, ATTACHED, drain);
    assert [LockState, TakeGil] + drain.todo[1..] == WAITING.todo;
    r := GoesOn(r, 1, push, drain, ATTACHED, WAITING);
  }

  lemma DrainIsStuck(r0: Run) returns (r: Run)
    requires Possible(r0, LockStateAttached)
    requires ThreadsOf(r0, LockStateAttached) == [Thread([UnlockState], false, true), WAITING, ATTACHED]
    ensures Possible(r, LockStateAttached)
    ensures ThreadsOf(r, LockStateAttached) == [THROUGH, STUCK, WITH_GIL]
  {
    var push := Thread([UnlockState], false, true);
    assert ATTACHED.todo[1..] == WITH_GIL.todo;
    r := GoesOn(r0, 2, push, WAITING, ATTACHED, WITH_GIL);
    r := GoesOn(r, 0, push, WAITING, WITH_GIL, THROUGH);
    assert WAITING.todo[1..] == STUCK.todo;
    r := GoesOn(r, 1, THROUGH, WAITING, WITH_GIL, STUCK);
  }

  lemma NobodyCanStep()
    ensures var ts := [THROUGH, STUCK, WITH_GIL]; (forall t: nat :: !CanStep(ts, t)) && ts[1].todo != []
  {
    var ts := [THROUGH, STUCK, WITH_GIL];
    assert ts[2].gil && ts[1].state;
  }

  /** One step of one of three threads. */
  lemma GoesOn(r: Run, t: nat, a: Thread, b: Thread, c: Thread, moved: Thread) returns (r': Run)
    requires Possible(r, LockStateAttached) && ThreadsOf(r, LockStateAttached) == [a, b, c]
    requires CanStep([a, b, c], t)
    requires moved == Moved([a, b, c][t], !a.state && !b.state && !c.state)
    ensures Possible(r', LockStateAttached) && ThreadsOf(r', LockStateAttached) == [a, b, c][t := moved]
    ensures t == 0 ==> ThreadsOf(r', LockStateAttached) == [moved, b, c]
    ensures t == 1 ==> ThreadsOf(r', LockStateAttached) == [a, moved, c]
    ensures t == 2 ==> ThreadsOf(r', LockStateAttached) == [a, b, moved]
  {
    r' := Then(r, t);
    assert [a, b, c][0] == a && [a, b, c][1] == b && [a, b, c][2] == c;
    assert StateFree([a, b, c]) <==> !a.state && !b.state && !c.state;
  }

  lemma OneCall(c: Call, drainLock: Instruction)
    ensures Program([c], drainLock) == Code(c, drainLock)
  {
    assert [c][1..] == [];
  }
}
