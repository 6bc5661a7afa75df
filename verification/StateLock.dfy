/** A state that threads block on until it changes: a mutex, a condition variable and a count
    of the threads inside `wait_while`, which lets a transition skip the notification when
    nobody waits. A step is one critical section, or one notification after it. */
module StateLock {
  import opened Common

  /** What a waiter's `pending` makes of the state. A state that was not started yet is one
      no thread may wait on. */
  datatype Phase = NotStarted | Pending | Settled

  datatype Waiter =
    /** Has released the GIL and is about to take the lock. */
    | Arriving
    | Blocked
    /** Woken, for whatever reason, and about to take the lock and look again. */
    | Awake
    | Left(timedOut: bool)

  /** A transition's notification: still to be sent, with the count it read, or sent. */
  datatype Notification = Owed(waiters: nat) | Sent

  datatype Lock = Lock(phase: Phase, waiters: nat, threads: seq<Waiter>, notifications: seq<Notification>)

  function NewLock(phase: Phase): Lock {
    Lock(phase, 0, [], [])
  }

  datatype LockStep =
    | Start
    /** A transition out of the pending state; the count is read under the lock. */
    | Settle
    /** A transition that notifies nobody, from a state nobody can wait on. */
    | SettleQuietly
    /** Paging: a settled state is pending again. */
    | Reopen
    | Arrive
    | Enter(thread: nat)
    | WakeSpuriously(thread: nat)
    | LookAgain(thread: nat, expired: bool)
    | Notify(notification: nat)

  ghost predicate CanLockStep(s: Lock, step: LockStep) {
    match step
    case Start => s.phase == NotStarted
    case Settle => s.phase == Pending
    case SettleQuietly => s.phase == NotStarted
    case Reopen => s.phase == Settled
    case Arrive => s.phase != NotStarted
    case Enter(t) => t < |s.threads| && s.threads[t].Arriving?
    case WakeSpuriously(t) => t < |s.threads| && s.threads[t].Blocked?
    case LookAgain(t, _) => t < |s.threads| && s.threads[t].Awake?
    case Notify(k) => k < |s.notifications| && s.notifications[k].Owed?
  }

  function WakeAll(threads: seq<Waiter>): (r: seq<Waiter>)
    ensures |r| == |threads|
    ensures forall i :: 0 <= i < |r| ==> r[i] == if threads[i].Blocked? then Awake else threads[i]
  {
    seq(|threads|, i requires 0 <= i < |threads| => if threads[i].Blocked? then Awake else threads[i])
  }

  function LockNext(s: Lock, step: LockStep): Lock
    requires CanLockStep(s, step)
  {
    match step
    case Start => s.(phase := Pending)
    case Settle => s.(phase := Settled, notifications := s.notifications + [Owed(s.waiters)])
    case SettleQuietly => s.(phase := Settled)
    case Reopen => s.(phase := Pending)
    case Arrive => s.(threads := s.threads + [Arriving])
    case Enter(t) =>
      if s.phase != Pending then s.(threads := s.threads[t := Left(false)])
      else s.(waiters := s.waiters + 1, threads := s.threads[t := Blocked])
    case WakeSpuriously(t) => s.(threads := s.threads[t := Awake])
    case LookAgain(t, expired) =>
      if s.phase == Pending && !expired then s.(threads := s.threads[t := Blocked])
      else
        var left := if s.waiters > 0 then s.waiters - 1 else 0;
        s.(waiters := left, threads := s.threads[t := Left(s.phase == Pending)])
    case Notify(k) =>
      var sent := s.(notifications := s.notifications[k := Sent]);
      if s.notifications[k].waiters > 0 then sent.(threads := WakeAll(s.threads)) else sent
  }

  /** Whether a thread is inside `wait_while`, past its first look. */
  ghost function Inside(w: Waiter): int {
    if w.Blocked? || w.Awake? then 1 else 0
  }

  /** The count is the number of threads inside; nobody is, or comes, before the start; and
      a thread blocked on a settled state has a notification to come. */
  ghost predicate LockInv(s: Lock) {
    && s.waiters == Sum(s.threads, Inside)
    && (s.phase == NotStarted ==> s.threads == [])
    && (s.phase == Settled && (exists t :: 0 <= t < |s.threads| && s.threads[t].Blocked?) ==> NotificationToCome(s))
  }

  ghost predicate NotificationToCome(s: Lock) {
    exists k :: 0 <= k < |s.notifications| && s.notifications[k].Owed? && s.notifications[k].waiters > 0
  }

  lemma {:induction false} WakingKeepsInside(threads: seq<Waiter>)
    ensures Sum(WakeAll(threads), Inside) == Sum(threads, Inside)
  {
    if threads != [] {
      assert WakeAll(threads)[1..] == WakeAll(threads[1..]);
      WakingKeepsInside(threads[1..]);
    }
  }

  lemma LockStepKeepsInv(s: Lock, step: LockStep)
    requires CanLockStep(s, step) && LockInv(s)
    ensures LockInv(LockNext(s, step))
  {
    var s' := LockNext(s, step);
    match step
    case Settle =>
      if t :| 0 <= t < |s.threads| && s.threads[t].Blocked? {
        SumAtLeast(s.threads, t, Inside);
        assert s'.notifications[|s.notifications|] == Owed(s.waiters);
      }
    case Arrive => SumAppend(s.threads, Arriving, Inside);
    case Enter(t) =>
      SumUpdate(s.threads, t, s'.threads[t], Inside);
      BlockedBefore(s, s', t);
    case WakeSpuriously(t) =>
      SumUpdate(s.threads, t, Awake, Inside);
      BlockedBefore(s, s', t);
    case LookAgain(t, expired) =>
      SumUpdate(s.threads, t, s'.threads[t], Inside);
      SumAtLeast(s.threads, t, Inside);
      BlockedBefore(s, s', t);
    case Notify(k) =>
      WakingKeepsInside(s.threads);
      if s.notifications[k].waiters == 0 && NotificationToCome(s) {
        var j :| 0 <= j < |s.notifications| && s.notifications[j].Owed? && s.notifications[j].waiters > 0;
        assert s'.notifications[j] == s.notifications[j];
      }
    case _ =>
  }

  /** A step of thread `t` that does not leave it blocked on a settled state. */
  lemma BlockedBefore(s: Lock, s': Lock, t: nat)
    requires LockInv(s) && t < |s.threads| == |s'.threads| && s'.threads == s.threads[t := s'.threads[t]]
    requires s'.phase == s.phase && s'.notifications == s.notifications
    requires s.phase == Settled ==> !s'.threads[t].Blocked?
    ensures s'.phase == Settled && (exists u :: 0 <= u < |s'.threads| && s'.threads[u].Blocked?) ==>
        NotificationToCome(s')
  {
    if s'.phase == Settled && exists u :: 0 <= u < |s'.threads| && s'.threads[u].Blocked? {
      var u :| 0 <= u < |s'.threads| && s'.threads[u].Blocked?;
      assert s.threads[u].Blocked?;
    }
  }

  /** A wait that ends without timing out found the state not pending; one that timed out
      found it pending. */
  lemma WaitsEndTruthfully(s: Lock, step: LockStep, t: nat)
    requires CanLockStep(s, step) && t < |s.threads| && !s.threads[t].Left?
    requires LockNext(s, step).threads[t].Left?
    ensures LockNext(s, step).threads[t].timedOut <==> LockNext(s, step).phase == Pending
    ensures LockNext(s, step).threads[t].timedOut ==> step == LookAgain(t, true)
  {
  }

  /** A thread that looks goes on waiting exactly if the state is pending and it has time left;
      the first look is as good as any. A notification or a spurious wake-up lets it look. */
  lemma LooksDecide(s: Lock, t: nat, expired: bool)
    requires t < |s.threads|
    ensures s.threads[t].Arriving? ==>
              LockNext(s, Enter(t)).threads[t] == if s.phase == Pending then Blocked else Left(false)
    ensures s.threads[t].Awake? ==>
              LockNext(s, LookAgain(t, expired)).threads[t] ==
                if s.phase != Pending then Left(false) else if expired then Left(true) else Blocked
  {
  }

  /** The count as the program keeps it. */
  class WaiterCount {
    var waiters: nat

    constructor ()
      ensures waiters == 0
    {
      waiters := 0;
    }

    /** The first look of `wait_while`: whether to block. */
    method Begin(pending: bool) returns (block: bool)
      modifies this
      ensures block == pending && waiters == old(waiters) + if block then 1 else 0
    {
      if !pending {
        return false;
      }
      waiters := waiters + 1;
      block := true;
    }

    /** A later look: whether to go on blocking, and whether the wait timed out. */
    method LookAgain(pending: bool, expired: bool) returns (block: bool, timedOut: bool)
      requires waiters > 0
      modifies this
      ensures block == (pending && !expired) && timedOut == (pending && expired)
      ensures waiters == old(waiters) - if block then 0 else 1
    {
      if pending && !expired {
        return true, false;
      }
      waiters := waiters - 1;
      return false, pending && expired;
    }
  }
}

/** Any number of threads that wait on a state, and any transitions of it. */
module StateLockRuns {
  import opened StateLock

  datatype LockRun = Fresh(phase: Phase) | Stepped(before: LockRun, step: LockStep)

  ghost predicate Possible(r: LockRun)
    decreases r, 0
  {
    r.Stepped? ==> Possible(r.before) && CanLockStep(StateOf(r.before), r.step)
  }

  ghost function StateOf(r: LockRun): Lock
    requires Possible(r)
    decreases r, 1
  {
    match r
    case Fresh(phase) => NewLock(phase)
    case Stepped(before, step) => LockNext(StateOf(before), step)
  }

  /** No waiter is lost, over every run from any initial phase. Once the notifications are
      sent and the woken threads have looked, nobody is blocked on a settled state. */
  lemma {:induction false} NoWaiterIsLost(r: LockRun)
    requires Possible(r)
    ensures LockInv(StateOf(r))
    ensures var s := StateOf(r);
            && (s.phase == NotStarted ==> s.waiters == 0)
            && (s.phase == Settled && (forall k :: 0 <= k < |s.notifications| ==> s.notifications[k].Sent?) ==>
                  forall t :: 0 <= t < |s.threads| ==> !s.threads[t].Blocked?)
  {
    match r
    case Fresh(_) =>
    case Stepped(before, step) =>
      NoWaiterIsLost(before);
      LockStepKeepsInv(StateOf(before), step);
  }
}
